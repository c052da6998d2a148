/**
 * What `saveEvent` and the tool-call loop guarantee: early returns touch
 * nothing, the update path patches exactly the recorded event and leaves the
 * table alone, the create path writes one new record, nothing is announced
 * unless the booking went through, a replay of a booking updates the event it
 * created, and the appointment table keeps one record per client and service.
 */
module BookingProperties {
  import opened Wrappers
  import opened JsValues
  import opened Appointments
  import CalendarGateway
  import opened Booking

  /** Every stored `appointments` attribute is a client map. */
  ghost predicate WellTyped(t: Table)
  {
    forall k :: k in t && AppointmentsField in t[k] ==> t[k][AppointmentsField].ClientLists?
  }

  /** No two records of one client list are for the same service. */
  predicate UniqueServicesIn(list: seq<AppointmentRecord>)
  {
    forall i, j :: 0 <= i < j < |list| ==> list[i].service != list[j].service
  }

  ghost predicate UniqueServices(t: Table)
  {
    forall k, client ::
      (k in t && AppointmentsField in t[k] && t[k][AppointmentsField].ClientLists? && client in t[k][AppointmentsField].lists)
      ==> UniqueServicesIn(t[k][AppointmentsField].lists[client])
  }

  /** The invariant of the appointment table as `saveEvent` maintains it. */
  ghost predicate ValidTable(t: Table)
  {
    KeysConsistent(t) && WellTyped(t) && UniqueServices(t)
  }

  /** The record a successful create path stores. */
  function NewRecord(w: World, assistantNumber: string, payload: Fields, eventId: string): AppointmentRecord
    requires EmployeeFor(w, assistantNumber, payload).Some?
  {
    AppointmentRecord(Get(ResolveService(payload), "service_name"), eventId, EmployeeFor(w, assistantNumber, payload).value.1.name)
  }

  /**
   * The confirmation step between `before` and `after`: when there is a body
   * to send, the last request is its send attempt, from the assistant number
   * to the business's notification number, and it is in the outbox exactly
   * when delivered; otherwise nothing is delivered.
   */
  predicate Confirmed(before: World, after: World, assistantNumber: string, clientNumber: string, busi: Business,
                      p: Fields, delivered: bool)
  {
    var body := ConfirmationBody(p, clientNumber);
    && (body.None? ==> after.outbox == before.outbox)
    && (body.Some? ==>
          var m := Message(assistantNumber, busi.notificationsNumber, body.value);
          && |after.effects| > 0 && after.effects[|after.effects| - 1] == SendAttempt(m)
          && after.outbox == before.outbox + (if delivered then [m] else []))
  }

  /** Which path `saveEvent` takes once both reads succeeded and the employee was found. */
  lemma Routes(w: World, assistantNumber: string, clientNumber: string, payload: Fields, f: SaveFaults)
    requires !f.businessReadFails && !f.appointmentReadFails
    requires EmployeeFor(w, assistantNumber, payload).Some?
    ensures var busi := w.businesses[assistantNumber];
      var employee := EmployeeFor(w, assistantNumber, payload).value.1;
      var p := ResolveService(payload);
      var prior := PriorRecord(w.table, assistantNumber, clientNumber, payload);
      Reconcile(w, assistantNumber, clientNumber, payload, f) ==
        if prior.Some? then UpdatePath(w, assistantNumber, clientNumber, busi, employee, prior.value, p, f)
        else CreatePath(w, assistantNumber, clientNumber, busi, employee, GetAppointment(w.table, assistantNumber, clientNumber),
                        ClientKey(p), p, f)
  {
  }

  /** A calendar operation appends its requests to the log and touches only the calendars. */
  lemma AfterCalendarEffects(w: World, reply: CalendarGateway.Reply)
    ensures var w1 := AfterCalendar(w, reply);
      && |w1.effects| == |w.effects| + |reply.requests| && w1.effects[..|w.effects|] == w.effects
      && (forall i :: 0 <= i < |reply.requests| ==> w1.effects[|w.effects| + i] == CalendarCall(reply.requests[i]))
      && w1.table == w.table && w1.outbox == w.outbox && w1.businesses == w.businesses
  {
  }

  /** The confirmation step appends at most one send attempt and touches only the outbox. */
  lemma NotifyEffects(w: World, assistantNumber: string, clientNumber: string, busi: Business, payload: Fields, delivered: bool)
    ensures var r := Notify(w, assistantNumber, clientNumber, busi, payload, delivered);
      && |w.effects| <= |r.effects| <= |w.effects| + 1 && r.effects[..|w.effects|] == w.effects
      && (forall i :: |w.effects| <= i < |r.effects| ==> r.effects[i].SendAttempt?)
      && r.table == w.table && r.calendars == w.calendars && r.businesses == w.businesses
  {
  }

  /** The confirmation step only appends one send attempt, and a delivered message. */
  lemma NotifyFacts(w: World, assistantNumber: string, clientNumber: string, busi: Business, payload: Fields, delivered: bool)
    ensures var r := Notify(w, assistantNumber, clientNumber, busi, payload, delivered);
      var body := ConfirmationBody(payload, clientNumber);
      && (body.None? ==> r == w)
      && (body.Some? ==>
            var m := Message(assistantNumber, busi.notificationsNumber, body.value);
            r == w.(effects := w.effects + [SendAttempt(m)], outbox := w.outbox + if delivered then [m] else []))
  {
  }

  /**
   * The update path patches the recorded event (re-inserting it under the same
   * id when it is gone), writes no item, and confirms only when the calendar
   * accepted the change.
   */
  lemma UpdatePathFacts(w: World, assistantNumber: string, clientNumber: string, busi: Business, employee: Employee,
                        existing: AppointmentRecord, p: Fields, f: SaveFaults)
    ensures var r := UpdatePath(w, assistantNumber, clientNumber, busi, employee, existing, p, f);
      && r.world.table == w.table && r.world.businesses == w.businesses
      && r.world.calendars == CalendarGateway.PatchEvent(w.calendars, employee.calendarId, existing.eventId, p, f.patch, f.insert).calendars
      && (r.outcome == Updated(existing.eventId) || r.outcome.CalendarFailed?)
      && |w.effects| < |r.world.effects| && r.world.effects[..|w.effects|] == w.effects
      && r.world.effects[|w.effects|]
         == CalendarCall(CalendarGateway.Patch(employee.calendarId, existing.eventId, CalendarGateway.PatchBody(p)))
      && (forall i :: |w.effects| < i < |r.world.effects| ==>
            !r.world.effects[i].StorePut? && !(r.world.effects[i].CalendarCall? && r.world.effects[i].request.Patch?))
      && (r.outcome.CalendarFailed? ==>
            && r.world.outbox == w.outbox
            && forall i :: |w.effects| <= i < |r.world.effects| ==> !r.world.effects[i].SendAttempt?)
      && (r.outcome.Updated? ==> Confirmed(w, r.world, assistantNumber, clientNumber, busi, p, f.notificationDelivered))
  {
    var reply := CalendarGateway.PatchEvent(w.calendars, employee.calendarId, existing.eventId, p, f.patch, f.insert);
    var patch := CalendarGateway.Patch(employee.calendarId, existing.eventId, CalendarGateway.PatchBody(p));
    assert forall i :: 1 <= i < |reply.requests| ==> reply.requests[i].Insert?;
    AfterPatchFrame(w, assistantNumber, clientNumber, busi, existing.eventId, p, f.notificationDelivered, reply);
    AfterPatchRequests(w, assistantNumber, clientNumber, busi, existing.eventId, p, f.notificationDelivered, reply, patch);
    AfterPatchFailure(w, assistantNumber, clientNumber, busi, existing.eventId, p, f.notificationDelivered, reply);
    AfterPatchConfirms(w, assistantNumber, clientNumber, busi, existing.eventId, p, f.notificationDelivered, reply);
  }

  /** After a patch only the calendars and the log change; the outcome is the event or the error. */
  lemma AfterPatchFrame(w: World, assistantNumber: string, clientNumber: string, busi: Business, eventId: string,
                       p: Fields, delivered: bool, reply: CalendarGateway.Reply)
    ensures var r := AfterPatch(w, assistantNumber, clientNumber, busi, eventId, p, delivered, reply);
      && r.world.table == w.table && r.world.businesses == w.businesses && r.world.calendars == reply.calendars
      && (r.outcome == Updated(eventId) || r.outcome.CalendarFailed?)
  {
    NotifyEffects(AfterCalendar(w, reply), assistantNumber, clientNumber, busi, p, delivered);
  }

  /** A patch followed at most by re-inserts is logged first; no write and no second patch follow. */
  lemma AfterPatchRequests(w: World, assistantNumber: string, clientNumber: string, busi: Business, eventId: string,
                       p: Fields, delivered: bool, reply: CalendarGateway.Reply,
                          patch: CalendarGateway.Request)
    requires 1 <= |reply.requests| && reply.requests[0] == patch && patch.Patch?
    requires forall i :: 1 <= i < |reply.requests| ==> reply.requests[i].Insert?
    ensures var r := AfterPatch(w, assistantNumber, clientNumber, busi, eventId, p, delivered, reply);
      && |w.effects| < |r.world.effects| && r.world.effects[..|w.effects|] == w.effects
      && r.world.effects[|w.effects|] == CalendarCall(patch)
      && (forall i :: |w.effects| < i < |r.world.effects| ==>
            !r.world.effects[i].StorePut? && !(r.world.effects[i].CalendarCall? && r.world.effects[i].request.Patch?))
  {
    AfterPatchExtends(w, assistantNumber, clientNumber, busi, eventId, p, delivered, reply);
    PatchLogShape(w.effects, reply.requests, AfterPatch(w, assistantNumber, clientNumber, busi, eventId, p, delivered, reply).world.effects, patch);
  }

  /** A log holding a patch, then re-inserts, then send attempts: the patch first, and no write or second patch after it. */
  lemma PatchLogShape(before: seq<Effect>, requests: seq<CalendarGateway.Request>, after: seq<Effect>, patch: CalendarGateway.Request)
    requires 1 <= |requests| && requests[0] == patch && patch.Patch?
    requires forall i :: 1 <= i < |requests| ==> requests[i].Insert?
    requires |before + Lift(requests)| <= |after| && after[..|before + Lift(requests)|] == before + Lift(requests)
    requires forall i :: |before + Lift(requests)| <= i < |after| ==> after[i].SendAttempt?
    ensures |before| < |after| && after[..|before|] == before && after[|before|] == CalendarCall(patch)
    ensures forall i :: |before| < i < |after| ==> !after[i].StorePut? && !(after[i].CalendarCall? && after[i].request.Patch?)
  {
    var logged := before + Lift(requests);
    assert after[..|before|] == logged[..|before|];
    assert after[|before|] == logged[|before|] == Lift(requests)[0];
    forall i | |before| < i < |after|
      ensures !after[i].StorePut? && !(after[i].CalendarCall? && after[i].request.Patch?)
    {
      if i < |logged| {
        assert after[i] == logged[i] == Lift(requests)[i - |before|];
      }
    }
  }

  /** After the patch's requests are logged, at most send attempts follow. */
  lemma AfterPatchExtends(w: World, assistantNumber: string, clientNumber: string, busi: Business, eventId: string,
                          p: Fields, delivered: bool, reply: CalendarGateway.Reply)
    ensures var w1 := AfterCalendar(w, reply);
      var r := AfterPatch(w, assistantNumber, clientNumber, busi, eventId, p, delivered, reply).world;
      && |w1.effects| <= |r.effects| && r.effects[..|w1.effects|] == w1.effects
      && forall i :: |w1.effects| <= i < |r.effects| ==> r.effects[i].SendAttempt?
  {
    var w1 := AfterCalendar(w, reply);
    if reply.result.Success? {
      NotifyEffects(w1, assistantNumber, clientNumber, busi, p, delivered);
    }
  }

  /** A patch that threw sends nothing. */
  lemma AfterPatchFailure(w: World, assistantNumber: string, clientNumber: string, busi: Business, eventId: string,
                       p: Fields, delivered: bool, reply: CalendarGateway.Reply)
    ensures var r := AfterPatch(w, assistantNumber, clientNumber, busi, eventId, p, delivered, reply);
      (r.outcome.CalendarFailed? ==>
         && r.world.outbox == w.outbox
         && forall i :: |w.effects| <= i < |r.world.effects| ==> !r.world.effects[i].SendAttempt?)
  {
    AfterCalendarEffects(w, reply);
    var w1 := AfterCalendar(w, reply);
    forall i | |w.effects| <= i < |w1.effects| ensures !w1.effects[i].SendAttempt? {
      assert w1.effects[|w.effects| + (i - |w.effects|)] == CalendarCall(reply.requests[i - |w.effects|]);
    }
  }

  /** A patch that went through is confirmed. */
  lemma AfterPatchConfirms(w: World, assistantNumber: string, clientNumber: string, busi: Business, eventId: string,
                       p: Fields, delivered: bool, reply: CalendarGateway.Reply)
    ensures var r := AfterPatch(w, assistantNumber, clientNumber, busi, eventId, p, delivered, reply);
      (r.outcome.Updated? ==> Confirmed(w, r.world, assistantNumber, clientNumber, busi, p, delivered))
  {
    AfterCalendarEffects(w, reply);
    NotifyFacts(AfterCalendar(w, reply), assistantNumber, clientNumber, busi, p, delivered);
  }

  /**
   * Recording a created event writes the client's document back (nothing
   * when `appointments` is not a client map) and confirms only when the write
   * took effect.
   */
  lemma StoreRecordFacts(w: World, assistantNumber: string, clientNumber: string, busi: Business,
                         apps: Option<Item>, client: string, p: Fields, f: SaveFaults, record: AppointmentRecord)
    ensures var r := StoreRecord(w, assistantNumber, clientNumber, busi, apps, client, p, f, record);
      && r.world.businesses == w.businesses && r.world.calendars == w.calendars
      && (r.outcome.ListMissing? || r.outcome.StoreFailed? || r.outcome == Created(record.eventId))
      && |w.effects| <= |r.world.effects| && r.world.effects[..|w.effects|] == w.effects
      && (!r.outcome.Created? ==>
            && r.world.table == w.table
            && r.world.outbox == w.outbox
            && forall i :: |w.effects| <= i < |r.world.effects| ==> !r.world.effects[i].SendAttempt?)
      && (r.outcome.Created? ==>
            && CreatedDocument(apps, client, record).Some?
            && PutAppointment(w.table, assistantNumber, clientNumber, CreatedDocument(apps, client, record).value).Some?
            && r.world.table == PutAppointment(w.table, assistantNumber, clientNumber, CreatedDocument(apps, client, record).value).value
            && Confirmed(w, r.world, assistantNumber, clientNumber, busi, p, f.notificationDelivered))
  {
    StoreRecordEffects(w, assistantNumber, clientNumber, busi, apps, client, p, f, record);
    StoreRecordStores(w, assistantNumber, clientNumber, busi, apps, client, p, f, record);
  }

  /** What recording a created event logs, and that a record that was not written changes nothing else. */
  lemma StoreRecordEffects(w: World, assistantNumber: string, clientNumber: string, busi: Business,
                         apps: Option<Item>, client: string, p: Fields, f: SaveFaults, record: AppointmentRecord)
    ensures var r := StoreRecord(w, assistantNumber, clientNumber, busi, apps, client, p, f, record);
      && r.world.businesses == w.businesses && r.world.calendars == w.calendars
      && (r.outcome.ListMissing? || r.outcome.StoreFailed? || r.outcome == Created(record.eventId))
      && |w.effects| <= |r.world.effects| && r.world.effects[..|w.effects|] == w.effects
      && (!r.outcome.Created? ==>
            && r.world.table == w.table
            && r.world.outbox == w.outbox
            && forall i :: |w.effects| <= i < |r.world.effects| ==> !r.world.effects[i].SendAttempt?)
  {
    var r := StoreRecord(w, assistantNumber, clientNumber, busi, apps, client, p, f, record);
    match CreatedDocument(apps, client, record)
    case None =>
      assert r == Reconciled(w, ListMissing);
    case Some(data) =>
      var w1 := w.(effects := w.effects + [StorePut(PutItem(assistantNumber, clientNumber, data))]);
      var put := PutAppointment(w.table, assistantNumber, clientNumber, data);
      assert w1.effects[..|w.effects|] == w.effects;
      if f.putFails || put.None? {
        assert r == Reconciled(w1, StoreFailed);
      } else {
        var w2 := w1.(table := put.value);
        assert r == Reconciled(Notify(w2, assistantNumber, clientNumber, busi, p, f.notificationDelivered), Created(record.eventId));
        NotifyEffects(w2, assistantNumber, clientNumber, busi, p, f.notificationDelivered);
        NotifyFacts(w2, assistantNumber, clientNumber, busi, p, f.notificationDelivered);
        assert r.world.effects[..|w.effects|] == w2.effects[..|w2.effects|][..|w.effects|];
      }
  }


  /** A record that was written is the client's document, and it is confirmed. */
  lemma StoreRecordStores(w: World, assistantNumber: string, clientNumber: string, busi: Business,
                         apps: Option<Item>, client: string, p: Fields, f: SaveFaults, record: AppointmentRecord)
    ensures var r := StoreRecord(w, assistantNumber, clientNumber, busi, apps, client, p, f, record);
      (r.outcome.Created? ==>
         && CreatedDocument(apps, client, record).Some?
         && PutAppointment(w.table, assistantNumber, clientNumber, CreatedDocument(apps, client, record).value).Some?
         && r.world.table == PutAppointment(w.table, assistantNumber, clientNumber, CreatedDocument(apps, client, record).value).value
         && Confirmed(w, r.world, assistantNumber, clientNumber, busi, p, f.notificationDelivered))
  {
    var r := StoreRecord(w, assistantNumber, clientNumber, busi, apps, client, p, f, record);
    match CreatedDocument(apps, client, record)
    case None =>
      assert r == Reconciled(w, ListMissing);
    case Some(data) =>
      var w1 := w.(effects := w.effects + [StorePut(PutItem(assistantNumber, clientNumber, data))]);
      var put := PutAppointment(w.table, assistantNumber, clientNumber, data);
      assert w1.effects[..|w.effects|] == w.effects;
      if f.putFails || put.None? {
        assert r == Reconciled(w1, StoreFailed);
      } else {
        var w2 := w1.(table := put.value);
        assert r == Reconciled(Notify(w2, assistantNumber, clientNumber, busi, p, f.notificationDelivered), Created(record.eventId));
        NotifyEffects(w2, assistantNumber, clientNumber, busi, p, f.notificationDelivered);
        NotifyFacts(w2, assistantNumber, clientNumber, busi, p, f.notificationDelivered);
        assert r.world.effects[..|w.effects|] == w2.effects[..|w2.effects|][..|w.effects|];
      }
  }


  /** The create path inserts one event, and only a successful insert reaches the table. */
  lemma CreatePathFacts(w: World, assistantNumber: string, clientNumber: string, busi: Business, employee: Employee,
                        apps: Option<Item>, client: string, p: Fields, f: SaveFaults)
    ensures var r := CreatePath(w, assistantNumber, clientNumber, busi, employee, apps, client, p, f);
      && r.world.businesses == w.businesses
      && (r.outcome.CalendarFailed? || r.outcome.ListMissing? || r.outcome.StoreFailed? || r.outcome.Created?)
      && |w.effects| < |r.world.effects| && r.world.effects[..|w.effects|] == w.effects
      && r.world.effects[|w.effects|] == CalendarCall(CalendarGateway.Insert(employee.calendarId, p))
      && (forall i :: |w.effects| < i < |r.world.effects| ==> !r.world.effects[i].CalendarCall?)
      && r.world.calendars == CalendarGateway.CreateEvent(w.calendars, employee.calendarId, p, f.create, f.serviceEventId).calendars
      && (!r.outcome.Created? ==>
            && r.world.table == w.table
            && r.world.outbox == w.outbox
            && forall i :: |w.effects| <= i < |r.world.effects| ==> !r.world.effects[i].SendAttempt?)
      && (r.outcome.Created? ==>
            var record := AppointmentRecord(Get(p, "service_name"), r.outcome.eventId, employee.name);
            && CreatedDocument(apps, client, record).Some?
            && PutAppointment(w.table, assistantNumber, clientNumber, CreatedDocument(apps, client, record).value).Some?
            && r.world.table == PutAppointment(w.table, assistantNumber, clientNumber, CreatedDocument(apps, client, record).value).value
            && Confirmed(w, r.world, assistantNumber, clientNumber, busi, p, f.notificationDelivered))
  {
    CreatePathEffects(w, assistantNumber, clientNumber, busi, employee, apps, client, p, f);
    CreatePathCalendars(w, assistantNumber, clientNumber, busi, employee, apps, client, p, f);
    CreatePathStores(w, assistantNumber, clientNumber, busi, employee, apps, client, p, f);
  }

  /** Recording a created event issues no calendar request. */
  lemma StoreRecordNoCalendarCall(w: World, assistantNumber: string, clientNumber: string, busi: Business,
                                  apps: Option<Item>, client: string, p: Fields, f: SaveFaults, record: AppointmentRecord)
    ensures var r := StoreRecord(w, assistantNumber, clientNumber, busi, apps, client, p, f, record);
      && |w.effects| <= |r.world.effects| && r.world.calendars == w.calendars
      && forall i :: |w.effects| <= i < |r.world.effects| ==> !r.world.effects[i].CalendarCall?
  {
    var r := StoreRecord(w, assistantNumber, clientNumber, busi, apps, client, p, f, record);
    match CreatedDocument(apps, client, record)
    case None =>
      assert r == Reconciled(w, ListMissing);
    case Some(data) =>
      var w1 := w.(effects := w.effects + [StorePut(PutItem(assistantNumber, clientNumber, data))]);
      var put := PutAppointment(w.table, assistantNumber, clientNumber, data);
      if f.putFails || put.None? {
        assert r == Reconciled(w1, StoreFailed);
      } else {
        var w2 := w1.(table := put.value);
        assert r.world == Notify(w2, assistantNumber, clientNumber, busi, p, f.notificationDelivered);
        NotifyEffects(w2, assistantNumber, clientNumber, busi, p, f.notificationDelivered);
        assert r.world.effects[|w.effects|] == r.world.effects[..|w2.effects|][|w.effects|];
      }
  }

  /** The create path's calendars are the insert's, and the insert is its only calendar request. */
  lemma CreatePathCalendars(w: World, assistantNumber: string, clientNumber: string, busi: Business, employee: Employee,
                            apps: Option<Item>, client: string, p: Fields, f: SaveFaults)
    ensures var r := CreatePath(w, assistantNumber, clientNumber, busi, employee, apps, client, p, f);
      && r.world.calendars == CalendarGateway.CreateEvent(w.calendars, employee.calendarId, p, f.create, f.serviceEventId).calendars
      && |w.effects| < |r.world.effects|
      && forall i :: |w.effects| < i < |r.world.effects| ==> !r.world.effects[i].CalendarCall?
  {
    var reply := CalendarGateway.CreateEvent(w.calendars, employee.calendarId, p, f.create, f.serviceEventId);
    CreateRoutes(w, assistantNumber, clientNumber, busi, employee, apps, client, p, f);
    AfterCalendarEffects(w, reply);
    if reply.result.Success? {
      var record := AppointmentRecord(Get(p, "service_name"), reply.result.value.id, employee.name);
      StoreRecordNoCalendarCall(AfterCalendar(w, reply), assistantNumber, clientNumber, busi, apps, client, p, f, record);
    }
  }

  /** The create path's requests, and that a create that did not go through leaves table and outbox alone. */
  lemma CreatePathEffects(w: World, assistantNumber: string, clientNumber: string, busi: Business, employee: Employee,
                        apps: Option<Item>, client: string, p: Fields, f: SaveFaults)
    ensures var r := CreatePath(w, assistantNumber, clientNumber, busi, employee, apps, client, p, f);
      && r.world.businesses == w.businesses
      && (r.outcome.CalendarFailed? || r.outcome.ListMissing? || r.outcome.StoreFailed? || r.outcome.Created?)
      && |w.effects| < |r.world.effects| && r.world.effects[..|w.effects|] == w.effects
      && r.world.effects[|w.effects|] == CalendarCall(CalendarGateway.Insert(employee.calendarId, p))
      && (!r.outcome.Created? ==>
            && r.world.table == w.table
            && r.world.outbox == w.outbox
            && forall i :: |w.effects| <= i < |r.world.effects| ==> !r.world.effects[i].SendAttempt?)
  {
    var reply := CalendarGateway.CreateEvent(w.calendars, employee.calendarId, p, f.create, f.serviceEventId);
    var insert := CalendarGateway.Insert(employee.calendarId, p);
    CreateRoutes(w, assistantNumber, clientNumber, busi, employee, apps, client, p, f);
    AfterCalendarEffects(w, reply);
    if reply.result.Success? {
      var record := AppointmentRecord(Get(p, "service_name"), reply.result.value.id, employee.name);
      StoredAfterInsert(w, reply, assistantNumber, clientNumber, busi, apps, client, p, f, record, insert);
    }
  }

  /** `createPath` is the insert, then, when it succeeded, the recording of its event. */
  lemma CreateRoutes(w: World, assistantNumber: string, clientNumber: string, busi: Business, employee: Employee,
                        apps: Option<Item>, client: string, p: Fields, f: SaveFaults)
    ensures var reply := CalendarGateway.CreateEvent(w.calendars, employee.calendarId, p, f.create, f.serviceEventId);
      && reply.requests == [CalendarGateway.Insert(employee.calendarId, p)]
      && CreatePath(w, assistantNumber, clientNumber, busi, employee, apps, client, p, f)
         == if reply.result.Failure? then Reconciled(AfterCalendar(w, reply), CalendarFailed(reply.result.error))
            else StoreRecord(AfterCalendar(w, reply), assistantNumber, clientNumber, busi, apps, client, p, f,
                             AppointmentRecord(Get(p, "service_name"), reply.result.value.id, employee.name))
  {
  }

  /** Recording the event of a one-request calendar operation: the request, then at most a write and a send. */
  lemma StoredAfterInsert(w: World, reply: CalendarGateway.Reply, assistantNumber: string, clientNumber: string, busi: Business,
                          apps: Option<Item>, client: string, p: Fields, f: SaveFaults, record: AppointmentRecord,
                          request: CalendarGateway.Request)
    requires reply.requests == [request]
    ensures var r := StoreRecord(AfterCalendar(w, reply), assistantNumber, clientNumber, busi, apps, client, p, f, record);
      && r.world.businesses == w.businesses
      && |w.effects| < |r.world.effects| && r.world.effects[..|w.effects|] == w.effects
      && r.world.effects[|w.effects|] == CalendarCall(request)
      && (!r.outcome.Created? ==>
            && r.world.table == w.table
            && r.world.outbox == w.outbox
            && forall i :: |w.effects| <= i < |r.world.effects| ==> !r.world.effects[i].SendAttempt?)
  {
    var w1 := AfterCalendar(w, reply);
    AfterCalendarEffects(w, reply);
    StoreRecordEffects(w1, assistantNumber, clientNumber, busi, apps, client, p, f, record);
    var r := StoreRecord(w1, assistantNumber, clientNumber, busi, apps, client, p, f, record);
    assert r.world.effects[..|w.effects|] == w1.effects[..|w1.effects|][..|w.effects|];
    assert r.world.effects[|w.effects|] == w1.effects[|w.effects|];
  }

  /** A create that went through stores the client's document and is confirmed. */
  lemma CreatePathStores(w: World, assistantNumber: string, clientNumber: string, busi: Business, employee: Employee,
                        apps: Option<Item>, client: string, p: Fields, f: SaveFaults)
    ensures var r := CreatePath(w, assistantNumber, clientNumber, busi, employee, apps, client, p, f);
      (r.outcome.Created? ==>
         var record := AppointmentRecord(Get(p, "service_name"), r.outcome.eventId, employee.name);
         && CreatedDocument(apps, client, record).Some?
         && PutAppointment(w.table, assistantNumber, clientNumber, CreatedDocument(apps, client, record).value).Some?
         && r.world.table == PutAppointment(w.table, assistantNumber, clientNumber, CreatedDocument(apps, client, record).value).value
         && Confirmed(w, r.world, assistantNumber, clientNumber, busi, p, f.notificationDelivered))
  {
    var reply := CalendarGateway.CreateEvent(w.calendars, employee.calendarId, p, f.create, f.serviceEventId);
    CreateRoutes(w, assistantNumber, clientNumber, busi, employee, apps, client, p, f);
    AfterCalendarEffects(w, reply);
    if reply.result.Success? {
      var record := AppointmentRecord(Get(p, "service_name"), reply.result.value.id, employee.name);
      StoreRecordStores(AfterCalendar(w, reply), assistantNumber, clientNumber, busi, apps, client, p, f, record);
    }
  }

  /** The three early returns happen exactly when their condition holds, and change nothing. */
  lemma EarlyReturns(w: World, assistantNumber: string, clientNumber: string, payload: Fields, f: SaveFaults)
    ensures var r := Reconcile(w, assistantNumber, clientNumber, payload, f);
      var readsOk := !f.businessReadFails && !f.appointmentReadFails;
      var rostered := assistantNumber in w.businesses && w.businesses[assistantNumber].employees.Some?;
      && (r.outcome == ReadFailed <==> !readsOk)
      && (r.outcome == NoBusiness <==> readsOk && !rostered)
      && (r.outcome == NoEmployee <==> readsOk && rostered && EmployeeFor(w, assistantNumber, payload).None?)
      && (r.outcome.ReadFailed? || r.outcome.NoBusiness? || r.outcome.NoEmployee? ==> r.world == w)
  {
    if !f.businessReadFails && !f.appointmentReadFails && EmployeeFor(w, assistantNumber, payload).Some? {
      PathFacts(w, assistantNumber, clientNumber, payload, f);
    }
  }

  /** Both paths, seen from `saveEvent`: the facts of whichever path the stored records select. */
  lemma PathFacts(w: World, assistantNumber: string, clientNumber: string, payload: Fields, f: SaveFaults)
    requires !f.businessReadFails && !f.appointmentReadFails
    requires EmployeeFor(w, assistantNumber, payload).Some?
    ensures var r := Reconcile(w, assistantNumber, clientNumber, payload, f);
      && r.world.businesses == w.businesses
      && !(r.outcome.ReadFailed? || r.outcome.NoBusiness? || r.outcome.NoEmployee?)
      && |w.effects| < |r.world.effects| && r.world.effects[..|w.effects|] == w.effects
      && (!(r.outcome.Updated? || r.outcome.Created?) ==>
            && r.world.outbox == w.outbox
            && forall i :: |w.effects| <= i < |r.world.effects| ==> !r.world.effects[i].SendAttempt?)
  {
    Routes(w, assistantNumber, clientNumber, payload, f);
    var busi := w.businesses[assistantNumber];
    var employee := EmployeeFor(w, assistantNumber, payload).value.1;
    var p := ResolveService(payload);
    var prior := PriorRecord(w.table, assistantNumber, clientNumber, payload);
    if prior.Some? {
      UpdatePathFacts(w, assistantNumber, clientNumber, busi, employee, prior.value, p, f);
    } else {
      CreatePathFacts(w, assistantNumber, clientNumber, busi, employee,
                      GetAppointment(w.table, assistantNumber, clientNumber), ClientKey(p), p, f);
    }
  }

  /** Nothing is announced, nor delivered, unless the calendar (and, on the create path, the table) took the booking. */
  lemma NoConfirmationUnlessBooked(w: World, assistantNumber: string, clientNumber: string, payload: Fields, f: SaveFaults)
    ensures var r := Reconcile(w, assistantNumber, clientNumber, payload, f);
      && r.world.businesses == w.businesses
      && |w.effects| <= |r.world.effects| && r.world.effects[..|w.effects|] == w.effects
      && (!(r.outcome.Updated? || r.outcome.Created?) ==>
            && r.world.outbox == w.outbox
            && forall i :: |w.effects| <= i < |r.world.effects| ==> !r.world.effects[i].SendAttempt?)
  {
    if !f.businessReadFails && !f.appointmentReadFails && EmployeeFor(w, assistantNumber, payload).Some? {
      PathFacts(w, assistantNumber, clientNumber, payload, f);
    }
  }

  /**
   * When the client already has a record for the service, the only calendar
   * change requested is a patch of that record's event on the employee's
   * calendar (plus, if it is gone, the re-insert under the same id), the
   * table is not written, and the outcome names that event.
   */
  lemma UpdatePatchesRecordedEvent(w: World, assistantNumber: string, clientNumber: string, payload: Fields, f: SaveFaults)
    requires !f.businessReadFails && !f.appointmentReadFails
    requires EmployeeFor(w, assistantNumber, payload).Some?
    requires PriorRecord(w.table, assistantNumber, clientNumber, payload).Some?
    ensures var r := Reconcile(w, assistantNumber, clientNumber, payload, f);
      var employee := EmployeeFor(w, assistantNumber, payload).value.1;
      var existing := PriorRecord(w.table, assistantNumber, clientNumber, payload).value;
      && r.world.table == w.table
      && r.world.calendars
         == CalendarGateway.PatchEvent(w.calendars, employee.calendarId, existing.eventId, ResolveService(payload), f.patch, f.insert).calendars
      && (r.outcome == Updated(existing.eventId) || r.outcome.CalendarFailed?)
      && |w.effects| < |r.world.effects|
      && r.world.effects[|w.effects|]
         == CalendarCall(CalendarGateway.Patch(employee.calendarId, existing.eventId, CalendarGateway.PatchBody(ResolveService(payload))))
      && (forall i :: |w.effects| < i < |r.world.effects| ==>
            !r.world.effects[i].StorePut? && !(r.world.effects[i].CalendarCall? && r.world.effects[i].request.Patch?))
  {
    Routes(w, assistantNumber, clientNumber, payload, f);
    UpdatePathFacts(w, assistantNumber, clientNumber, w.businesses[assistantNumber], EmployeeFor(w, assistantNumber, payload).value.1,
                    PriorRecord(w.table, assistantNumber, clientNumber, payload).value, ResolveService(payload), f);
  }

  /** After a booking went through, its confirmation is sent (see `Confirmed`). */
  lemma ConfirmationAfterBooking(w: World, assistantNumber: string, clientNumber: string, payload: Fields, f: SaveFaults)
    requires Reconcile(w, assistantNumber, clientNumber, payload, f).outcome.Updated?
          || Reconcile(w, assistantNumber, clientNumber, payload, f).outcome.Created?
    ensures assistantNumber in w.businesses
    ensures Confirmed(w, Reconcile(w, assistantNumber, clientNumber, payload, f).world, assistantNumber, clientNumber,
                      w.businesses[assistantNumber], ResolveService(payload), f.notificationDelivered)
  {
    EarlyReturns(w, assistantNumber, clientNumber, payload, f);
    Routes(w, assistantNumber, clientNumber, payload, f);
    var busi := w.businesses[assistantNumber];
    var employee := EmployeeFor(w, assistantNumber, payload).value.1;
    var p := ResolveService(payload);
    var prior := PriorRecord(w.table, assistantNumber, clientNumber, payload);
    if prior.Some? {
      UpdatePathFacts(w, assistantNumber, clientNumber, busi, employee, prior.value, p, f);
    } else {
      CreatePathFacts(w, assistantNumber, clientNumber, busi, employee,
                      GetAppointment(w.table, assistantNumber, clientNumber), ClientKey(p), p, f);
    }
  }

  /**
   * A client with no `appointments` attribute gets a fresh document holding
   * only the new record, filed under (assistant number, client number).
   */
  lemma CreateWritesFreshDocument(w: World, assistantNumber: string, clientNumber: string, payload: Fields, f: SaveFaults)
    requires NoAppointments(GetAppointment(w.table, assistantNumber, clientNumber))
    requires Reconcile(w, assistantNumber, clientNumber, payload, f).outcome.Created?
    ensures EmployeeFor(w, assistantNumber, payload).Some?
    ensures var r := Reconcile(w, assistantNumber, clientNumber, payload, f);
      var record := NewRecord(w, assistantNumber, payload, r.outcome.eventId);
      r.world.table == w.table[Key(assistantNumber, clientNumber) :=
        PutItem(assistantNumber, clientNumber,
                map[AppointmentsField := ClientLists(map[ClientKey(ResolveService(payload)) := [record]])])]
  {
    EarlyReturns(w, assistantNumber, clientNumber, payload, f);
    Routes(w, assistantNumber, clientNumber, payload, f);
    var p := ResolveService(payload);
    var apps := GetAppointment(w.table, assistantNumber, clientNumber);
    assert ClientMap(apps).None?;
    CreatePathFresh(w, assistantNumber, clientNumber, w.businesses[assistantNumber], EmployeeFor(w, assistantNumber, payload).value.1,
                    apps, ClientKey(p), p, f);
  }

  /** The create path for a client without `appointments` files a fresh document holding only the new record. */
  lemma CreatePathFresh(w: World, assistantNumber: string, clientNumber: string, busi: Business, employee: Employee,
                        apps: Option<Item>, client: string, p: Fields, f: SaveFaults)
    requires NoAppointments(apps)
    requires CreatePath(w, assistantNumber, clientNumber, busi, employee, apps, client, p, f).outcome.Created?
    ensures var r := CreatePath(w, assistantNumber, clientNumber, busi, employee, apps, client, p, f);
      var record := AppointmentRecord(Get(p, "service_name"), r.outcome.eventId, employee.name);
      r.world.table == w.table[Key(assistantNumber, clientNumber) :=
                               PutItem(assistantNumber, clientNumber, map[AppointmentsField := ClientLists(map[client := [record]])])]
  {
    CreateRoutes(w, assistantNumber, clientNumber, busi, employee, apps, client, p, f);
    var reply := CalendarGateway.CreateEvent(w.calendars, employee.calendarId, p, f.create, f.serviceEventId);
    AfterCalendarEffects(w, reply);
    var record := AppointmentRecord(Get(p, "service_name"), reply.result.value.id, employee.name);
    StoreRecordFresh(AfterCalendar(w, reply), assistantNumber, clientNumber, busi, apps, client, p, f, record);
    StoreRecordEffects(AfterCalendar(w, reply), assistantNumber, clientNumber, busi, apps, client, p, f, record);
  }

  /** Recording for a client without `appointments` files a fresh document holding only the record. */
  lemma StoreRecordFresh(w: World, assistantNumber: string, clientNumber: string, busi: Business,
                         apps: Option<Item>, client: string, p: Fields, f: SaveFaults, record: AppointmentRecord)
    requires NoAppointments(apps)
    requires StoreRecord(w, assistantNumber, clientNumber, busi, apps, client, p, f, record).outcome.Created?
    ensures StoreRecord(w, assistantNumber, clientNumber, busi, apps, client, p, f, record).world.table
      == w.table[Key(assistantNumber, clientNumber) :=
                 PutItem(assistantNumber, clientNumber, map[AppointmentsField := ClientLists(map[client := [record]])])]
  {
    var document := map[AppointmentsField := ClientLists(map[client := [record]])];
    assert CreatedDocument(apps, client, record) == Some(document);
    assert KeyOf(PutItem(assistantNumber, clientNumber, document)) == Some(Key(assistantNumber, clientNumber));
    StoreRecordStores(w, assistantNumber, clientNumber, busi, apps, client, p, f, record);
  }

  /**
   * A client map gains exactly one record, at the end of the client's list
   * (a list created if the client had none); every other attribute, client
   * and item is left as it was.
   */
  lemma CreateAppendsOneRecord(w: World, assistantNumber: string, clientNumber: string, payload: Fields, f: SaveFaults)
    requires KeysConsistent(w.table)
    requires ClientMap(GetAppointment(w.table, assistantNumber, clientNumber)).Some?
    requires Reconcile(w, assistantNumber, clientNumber, payload, f).outcome.Created?
    ensures EmployeeFor(w, assistantNumber, payload).Some?
    ensures var r := Reconcile(w, assistantNumber, clientNumber, payload, f);
      var k := Key(assistantNumber, clientNumber);
      var lists := ClientMap(GetAppointment(w.table, assistantNumber, clientNumber)).value;
      var client := ClientKey(ResolveService(payload));
      var record := NewRecord(w, assistantNumber, payload, r.outcome.eventId);
      r.world.table == w.table[k := w.table[k][AppointmentsField := ClientLists(lists[client := ListOf(lists, client) + [record]])]]
  {
    CreatedOnCreatePath(w, assistantNumber, clientNumber, payload, f);
    Routes(w, assistantNumber, clientNumber, payload, f);
    var p := ResolveService(payload);
    CreatePathAppends(w, assistantNumber, clientNumber, w.businesses[assistantNumber], EmployeeFor(w, assistantNumber, payload).value.1,
                      GetAppointment(w.table, assistantNumber, clientNumber), ClientKey(p), p, f);
  }

  /** The create path for a client map appends the new record to the client's list. */
  lemma CreatePathAppends(w: World, assistantNumber: string, clientNumber: string, busi: Business, employee: Employee,
                          apps: Option<Item>, client: string, p: Fields, f: SaveFaults)
    requires KeysConsistent(w.table)
    requires apps == GetAppointment(w.table, assistantNumber, clientNumber) && ClientMap(apps).Some?
    requires CreatePath(w, assistantNumber, clientNumber, busi, employee, apps, client, p, f).outcome.Created?
    ensures var r := CreatePath(w, assistantNumber, clientNumber, busi, employee, apps, client, p, f);
      var k := Key(assistantNumber, clientNumber);
      var lists := ClientMap(apps).value;
      var record := AppointmentRecord(Get(p, "service_name"), r.outcome.eventId, employee.name);
      r.world.table == w.table[k := w.table[k][AppointmentsField := ClientLists(lists[client := ListOf(lists, client) + [record]])]]
  {
    CreateRoutes(w, assistantNumber, clientNumber, busi, employee, apps, client, p, f);
    var reply := CalendarGateway.CreateEvent(w.calendars, employee.calendarId, p, f.create, f.serviceEventId);
    AfterCalendarEffects(w, reply);
    var record := AppointmentRecord(Get(p, "service_name"), reply.result.value.id, employee.name);
    StoreRecordAppends(AfterCalendar(w, reply), assistantNumber, clientNumber, busi, apps, client, p, f, record);
    StoreRecordEffects(AfterCalendar(w, reply), assistantNumber, clientNumber, busi, apps, client, p, f, record);
  }

  /** Recording into an existing client map appends the record to the client's list and changes nothing else. */
  lemma StoreRecordAppends(w: World, assistantNumber: string, clientNumber: string, busi: Business,
                           apps: Option<Item>, client: string, p: Fields, f: SaveFaults, record: AppointmentRecord)
    requires KeysConsistent(w.table)
    requires apps == GetAppointment(w.table, assistantNumber, clientNumber) && ClientMap(apps).Some?
    requires StoreRecord(w, assistantNumber, clientNumber, busi, apps, client, p, f, record).outcome.Created?
    ensures var k := Key(assistantNumber, clientNumber);
      var lists := ClientMap(apps).value;
      StoreRecord(w, assistantNumber, clientNumber, busi, apps, client, p, f, record).world.table
        == w.table[k := w.table[k][AppointmentsField := ClientLists(lists[client := ListOf(lists, client) + [record]])]]
  {
    var k := Key(assistantNumber, clientNumber);
    var lists := ClientMap(apps).value;
    var data := w.table[k][AppointmentsField := ClientLists(lists[client := ListOf(lists, client) + [record]])];
    assert !NoAppointments(apps);
    assert CreatedDocument(apps, client, record) == Some(data);
    PutReadBackItem(w.table, assistantNumber, clientNumber, data);
    StoreRecordStores(w, assistantNumber, clientNumber, busi, apps, client, p, f, record);
  }

  /** A list without the service, extended by a record for it, finds that record. */
  lemma FindsAppended(list: seq<AppointmentRecord>, record: AppointmentRecord)
    requires forall i :: 0 <= i < |list| ==> list[i].service != record.service
    ensures Find(list + [record], (rec: AppointmentRecord) => rec.service == record.service) == Some(record)
  {
    var p := (rec: AppointmentRecord) => rec.service == record.service;
    var xs := list + [record];
    assert xs[|list|] == record;
    assert forall j :: 0 <= j < |list| ==> !p(xs[j]) by {
      forall j | 0 <= j < |list| ensures !p(xs[j]) { assert xs[j] == list[j]; }
    }
    var r := Find(xs, p);
    var i :| 0 <= i < |xs| && xs[i] == r.value && p(xs[i]) && forall j :: 0 <= j < i ==> !p(xs[j]);
    assert i == |list|;
  }

  /** In a table where the client's list has gained `record`, the lookup for its client and service finds it. */
  lemma FoundAfterAppend(t: Table, assistantNumber: string, clientNumber: string, payload: Fields,
                         lists: map<string, seq<AppointmentRecord>>, record: AppointmentRecord)
    requires Key(assistantNumber, clientNumber) in t
    requires AppointmentsField in t[Key(assistantNumber, clientNumber)]
    requires var client := ClientKey(ResolveService(payload));
      t[Key(assistantNumber, clientNumber)][AppointmentsField] == ClientLists(lists[client := ListOf(lists, client) + [record]])
    requires record.service == Get(ResolveService(payload), "service_name")
    requires forall i :: 0 <= i < |ListOf(lists, ClientKey(ResolveService(payload)))| ==>
      ListOf(lists, ClientKey(ResolveService(payload)))[i].service != record.service
    ensures PriorRecord(t, assistantNumber, clientNumber, payload) == Some(record)
  {
    var client := ClientKey(ResolveService(payload));
    var apps := GetAppointment(t, assistantNumber, clientNumber);
    assert ClientMap(apps) == Some(lists[client := ListOf(lists, client) + [record]]);
    assert ListOf(ClientMap(apps).value, client) == ListOf(lists, client) + [record];
    FindsAppended(ListOf(lists, client), record);
  }

  /** The record of a successful create path is what the next lookup for the same client and service finds. */
  lemma CreatedRecordIsFound(w: World, assistantNumber: string, clientNumber: string, payload: Fields, f: SaveFaults)
    requires ValidTable(w.table)
    requires Reconcile(w, assistantNumber, clientNumber, payload, f).outcome.Created?
    ensures EmployeeFor(w, assistantNumber, payload).Some?
    ensures var r := Reconcile(w, assistantNumber, clientNumber, payload, f);
      PriorRecord(r.world.table, assistantNumber, clientNumber, payload)
        == Some(NewRecord(w, assistantNumber, payload, r.outcome.eventId))
  {
    if NoAppointments(GetAppointment(w.table, assistantNumber, clientNumber)) {
      FreshRecordIsFound(w, assistantNumber, clientNumber, payload, f);
    } else {
      AppendedRecordIsFound(w, assistantNumber, clientNumber, payload, f);
    }
  }

  /** `CreatedRecordIsFound` for a client without `appointments`. */
  lemma FreshRecordIsFound(w: World, assistantNumber: string, clientNumber: string, payload: Fields, f: SaveFaults)
    requires ValidTable(w.table)
    requires Reconcile(w, assistantNumber, clientNumber, payload, f).outcome.Created?
    requires NoAppointments(GetAppointment(w.table, assistantNumber, clientNumber))
    ensures EmployeeFor(w, assistantNumber, payload).Some?
    ensures var r := Reconcile(w, assistantNumber, clientNumber, payload, f);
      PriorRecord(r.world.table, assistantNumber, clientNumber, payload)
        == Some(NewRecord(w, assistantNumber, payload, r.outcome.eventId))
  {
    EarlyReturns(w, assistantNumber, clientNumber, payload, f);
    var r := Reconcile(w, assistantNumber, clientNumber, payload, f);
    var client := ClientKey(ResolveService(payload));
    var record := NewRecord(w, assistantNumber, payload, r.outcome.eventId);
    CreateWritesFreshDocument(w, assistantNumber, clientNumber, payload, f);
    FoundInFreshDocument(w.table, assistantNumber, clientNumber, payload, record);
  }

  /** In a table where the client's item was replaced by a fresh document holding `record`, the lookup finds it. */
  lemma FoundInFreshDocument(t: Table, assistantNumber: string, clientNumber: string, payload: Fields, record: AppointmentRecord)
    requires record.service == Get(ResolveService(payload), "service_name")
    ensures var client := ClientKey(ResolveService(payload));
      var document := map[AppointmentsField := ClientLists(map[client := [record]])];
      PriorRecord(t[Key(assistantNumber, clientNumber) := PutItem(assistantNumber, clientNumber, document)],
                  assistantNumber, clientNumber, payload) == Some(record)
  {
    var client := ClientKey(ResolveService(payload));
    var k := Key(assistantNumber, clientNumber);
    var document := map[AppointmentsField := ClientLists(map[client := [record]])];
    var t1 := t[k := PutItem(assistantNumber, clientNumber, document)];
    assert t1[k][AppointmentsField] == ClientLists(map[client := [record]]);
    var none: map<string, seq<AppointmentRecord>> := map[];
    assert ListOf(none, client) + [record] == [record];
    assert map[client := [record]] == none[client := ListOf(none, client) + [record]];
    FoundAfterAppend(t1, assistantNumber, clientNumber, payload, none, record);
  }

  /** `CreatedRecordIsFound` for a client whose `appointments` is a client map. */
  lemma AppendedRecordIsFound(w: World, assistantNumber: string, clientNumber: string, payload: Fields, f: SaveFaults)
    requires ValidTable(w.table)
    requires Reconcile(w, assistantNumber, clientNumber, payload, f).outcome.Created?
    requires !NoAppointments(GetAppointment(w.table, assistantNumber, clientNumber))
    ensures EmployeeFor(w, assistantNumber, payload).Some?
    ensures var r := Reconcile(w, assistantNumber, clientNumber, payload, f);
      PriorRecord(r.world.table, assistantNumber, clientNumber, payload)
        == Some(NewRecord(w, assistantNumber, payload, r.outcome.eventId))
  {
    EarlyReturns(w, assistantNumber, clientNumber, payload, f);
    var r := Reconcile(w, assistantNumber, clientNumber, payload, f);
    var apps := GetAppointment(w.table, assistantNumber, clientNumber);
    var record := NewRecord(w, assistantNumber, payload, r.outcome.eventId);
    CreatedOnCreatePath(w, assistantNumber, clientNumber, payload, f);
    Routes(w, assistantNumber, clientNumber, payload, f);
    var p := ResolveService(payload);
    CreatePathStores(w, assistantNumber, clientNumber, w.businesses[assistantNumber], EmployeeFor(w, assistantNumber, payload).value.1,
                     apps, ClientKey(p), p, f);
    assert ClientMap(apps).Some?;
    CreateAppendsOneRecord(w, assistantNumber, clientNumber, payload, f);
    FoundAfterAppend(r.world.table, assistantNumber, clientNumber, payload, ClientMap(apps).value, record);
  }

  /**
   * Saving the same booking again after it was created takes the update path
   * on the event it created: the table gains no second record.
   */
  lemma ReplayUpdatesCreatedEvent(w: World, assistantNumber: string, clientNumber: string, payload: Fields,
                                  f: SaveFaults, again: SaveFaults)
    requires ValidTable(w.table)
    requires Reconcile(w, assistantNumber, clientNumber, payload, f).outcome.Created?
    requires !again.businessReadFails && !again.appointmentReadFails
    ensures var first := Reconcile(w, assistantNumber, clientNumber, payload, f);
      var second := Reconcile(first.world, assistantNumber, clientNumber, payload, again);
      && (second.outcome == Updated(first.outcome.eventId) || second.outcome.CalendarFailed?)
      && second.world.table == first.world.table
      && EmployeeFor(w, assistantNumber, payload).Some?
      && |first.world.effects| < |second.world.effects|
      && second.world.effects[|first.world.effects|]
         == CalendarCall(CalendarGateway.Patch(EmployeeFor(w, assistantNumber, payload).value.1.calendarId, first.outcome.eventId,
                                               CalendarGateway.PatchBody(ResolveService(payload))))
  {
    var first := Reconcile(w, assistantNumber, clientNumber, payload, f);
    CreatedRecordIsFound(w, assistantNumber, clientNumber, payload, f);
    NoConfirmationUnlessBooked(w, assistantNumber, clientNumber, payload, f);
    assert EmployeeFor(first.world, assistantNumber, payload) == EmployeeFor(w, assistantNumber, payload);
    UpdatePatchesRecordedEvent(first.world, assistantNumber, clientNumber, payload, again);
  }

  /** The fresh document written for a first booking keeps the table invariant. */
  lemma FreshDocumentValid(t: Table, assistantNumber: string, clientNumber: string, client: string, record: AppointmentRecord)
    requires ValidTable(t)
    ensures var data := map[AppointmentsField := ClientLists(map[client := [record]])];
      var put := PutAppointment(t, assistantNumber, clientNumber, data);
      put == Some(t[Key(assistantNumber, clientNumber) := PutItem(assistantNumber, clientNumber, data)]) && ValidTable(put.value)
  {
    var data := map[AppointmentsField := ClientLists(map[client := [record]])];
    var item := PutItem(assistantNumber, clientNumber, data);
    assert KeyOf(item) == Some(Key(assistantNumber, clientNumber));
  }

  /** Appending a record for a service the client's list lacks keeps the table invariant. */
  lemma AppendKeepsValid(t: Table, k: Key, lists: map<string, seq<AppointmentRecord>>, client: string, record: AppointmentRecord)
    requires ValidTable(t) && k in t && AppointmentsField in t[k] && t[k][AppointmentsField] == ClientLists(lists)
    requires forall i :: 0 <= i < |ListOf(lists, client)| ==> ListOf(lists, client)[i].service != record.service
    ensures ValidTable(t[k := t[k][AppointmentsField := ClientLists(lists[client := ListOf(lists, client) + [record]])]])
  {
    var grown := ListOf(lists, client) + [record];
    assert UniqueServicesIn(ListOf(lists, client));
    assert UniqueServicesIn(grown) by {
      forall i, j | 0 <= i < j < |grown| ensures grown[i].service != grown[j].service {
        assert grown[i] == ListOf(lists, client)[i];
        if j < |grown| - 1 {
          assert grown[j] == ListOf(lists, client)[j];
        }
      }
    }
    var item := t[k][AppointmentsField := ClientLists(lists[client := grown])];
    assert KeyOf(item) == KeyOf(t[k]);
  }

  /** `saveEvent` keeps the table invariant. */
  lemma ReconcileKeepsValid(w: World, assistantNumber: string, clientNumber: string, payload: Fields, f: SaveFaults)
    requires ValidTable(w.table)
    ensures ValidTable(Reconcile(w, assistantNumber, clientNumber, payload, f).world.table)
  {
    TableChangesOnlyOnCreate(w, assistantNumber, clientNumber, payload, f);
    if Reconcile(w, assistantNumber, clientNumber, payload, f).outcome.Created? {
      CreateKeepsValid(w, assistantNumber, clientNumber, payload, f);
    }
  }

  /** Only a booking that was created writes the table. */
  lemma TableChangesOnlyOnCreate(w: World, assistantNumber: string, clientNumber: string, payload: Fields, f: SaveFaults)
    ensures var r := Reconcile(w, assistantNumber, clientNumber, payload, f);
      !r.outcome.Created? ==> r.world.table == w.table
  {
    if !f.businessReadFails && !f.appointmentReadFails && EmployeeFor(w, assistantNumber, payload).Some? {
      Routes(w, assistantNumber, clientNumber, payload, f);
      var busi := w.businesses[assistantNumber];
      var employee := EmployeeFor(w, assistantNumber, payload).value.1;
      var p := ResolveService(payload);
      var prior := PriorRecord(w.table, assistantNumber, clientNumber, payload);
      if prior.Some? {
        UpdatePathFacts(w, assistantNumber, clientNumber, busi, employee, prior.value, p, f);
      } else {
        CreatePathEffects(w, assistantNumber, clientNumber, busi, employee,
                          GetAppointment(w.table, assistantNumber, clientNumber), ClientKey(p), p, f);
      }
    }
  }

  /** A created booking went down the create path: both reads succeeded, the employee was found, no record existed. */
  lemma CreatedOnCreatePath(w: World, assistantNumber: string, clientNumber: string, payload: Fields, f: SaveFaults)
    requires Reconcile(w, assistantNumber, clientNumber, payload, f).outcome.Created?
    ensures !f.businessReadFails && !f.appointmentReadFails && EmployeeFor(w, assistantNumber, payload).Some?
    ensures PriorRecord(w.table, assistantNumber, clientNumber, payload).None?
  {
    EarlyReturns(w, assistantNumber, clientNumber, payload, f);
    Routes(w, assistantNumber, clientNumber, payload, f);
    var prior := PriorRecord(w.table, assistantNumber, clientNumber, payload);
    if prior.Some? {
      UpdatePathFacts(w, assistantNumber, clientNumber, w.businesses[assistantNumber], EmployeeFor(w, assistantNumber, payload).value.1,
                      prior.value, ResolveService(payload), f);
    }
  }

  /**
   * A created booking adds exactly one event to the employee's calendar,
   * under an id that was free, holding the payload; that insert is the only
   * calendar request, and every other calendar and event is unchanged.
   */
  lemma CreateInsertsOneEvent(w: World, assistantNumber: string, clientNumber: string, payload: Fields, f: SaveFaults)
    requires Reconcile(w, assistantNumber, clientNumber, payload, f).outcome.Created?
    ensures var r := Reconcile(w, assistantNumber, clientNumber, payload, f);
      && EmployeeFor(w, assistantNumber, payload).Some?
      && (var cal := EmployeeFor(w, assistantNumber, payload).value.1.calendarId;
          var id := r.outcome.eventId;
          && cal in w.calendars && id !in w.calendars[cal]
          && r.world.calendars == w.calendars[cal := w.calendars[cal][id := ResolveService(payload)["id" := Str(id)]]]
          && |w.effects| < |r.world.effects|
          && r.world.effects[|w.effects|] == CalendarCall(CalendarGateway.Insert(cal, ResolveService(payload)))
          && forall i :: |w.effects| < i < |r.world.effects| ==> !r.world.effects[i].CalendarCall?)
  {
    CreatedOnCreatePath(w, assistantNumber, clientNumber, payload, f);
    Routes(w, assistantNumber, clientNumber, payload, f);
    var busi := w.businesses[assistantNumber];
    var employee := EmployeeFor(w, assistantNumber, payload).value.1;
    var p := ResolveService(payload);
    var apps := GetAppointment(w.table, assistantNumber, clientNumber);
    CreateRoutes(w, assistantNumber, clientNumber, busi, employee, apps, ClientKey(p), p, f);
    CreatePathCalendars(w, assistantNumber, clientNumber, busi, employee, apps, ClientKey(p), p, f);
    CreatePathEffects(w, assistantNumber, clientNumber, busi, employee, apps, ClientKey(p), p, f);
  }

  /** A created booking keeps the table invariant: a fresh document, or one more record for a new service. */
  lemma CreateKeepsValid(w: World, assistantNumber: string, clientNumber: string, payload: Fields, f: SaveFaults)
    requires ValidTable(w.table)
    requires Reconcile(w, assistantNumber, clientNumber, payload, f).outcome.Created?
    ensures ValidTable(Reconcile(w, assistantNumber, clientNumber, payload, f).world.table)
  {
    var r := Reconcile(w, assistantNumber, clientNumber, payload, f);
    CreatedOnCreatePath(w, assistantNumber, clientNumber, payload, f);
    var apps := GetAppointment(w.table, assistantNumber, clientNumber);
    var client := ClientKey(ResolveService(payload));
    var record := NewRecord(w, assistantNumber, payload, r.outcome.eventId);
    if NoAppointments(apps) {
      CreateWritesFreshDocument(w, assistantNumber, clientNumber, payload, f);
      FreshDocumentValid(w.table, assistantNumber, clientNumber, client, record);
    } else {
      assert ClientMap(apps).Some?;
      CreateAppendsOneRecord(w, assistantNumber, clientNumber, payload, f);
      AppendKeepsValid(w.table, Key(assistantNumber, clientNumber), ClientMap(apps).value, client, record);
    }
  }

  /** Two runs that differ only in whether the confirmation was delivered. */
  predicate SameButOutbox(sent: Reconciled, lost: Reconciled, before: World)
  {
    && sent.outcome == lost.outcome
    && sent.world.(outbox := lost.world.outbox) == lost.world
    && lost.world.outbox == before.outbox
  }

  lemma UpdatePathDelivery(w: World, assistantNumber: string, clientNumber: string, busi: Business, employee: Employee,
                           existing: AppointmentRecord, p: Fields, f: SaveFaults)
    ensures SameButOutbox(UpdatePath(w, assistantNumber, clientNumber, busi, employee, existing, p, f.(notificationDelivered := true)),
                          UpdatePath(w, assistantNumber, clientNumber, busi, employee, existing, p, f.(notificationDelivered := false)), w)
  {
  }

  lemma StoreRecordDelivery(w: World, assistantNumber: string, clientNumber: string, busi: Business,
                            apps: Option<Item>, client: string, p: Fields, f: SaveFaults, record: AppointmentRecord)
    ensures SameButOutbox(StoreRecord(w, assistantNumber, clientNumber, busi, apps, client, p, f.(notificationDelivered := true), record),
                          StoreRecord(w, assistantNumber, clientNumber, busi, apps, client, p, f.(notificationDelivered := false), record), w)
  {
  }

  lemma CreatePathDelivery(w: World, assistantNumber: string, clientNumber: string, busi: Business, employee: Employee,
                           apps: Option<Item>, client: string, p: Fields, f: SaveFaults)
    ensures SameButOutbox(CreatePath(w, assistantNumber, clientNumber, busi, employee, apps, client, p, f.(notificationDelivered := true)),
                          CreatePath(w, assistantNumber, clientNumber, busi, employee, apps, client, p, f.(notificationDelivered := false)), w)
  {
    var reply := CalendarGateway.CreateEvent(w.calendars, employee.calendarId, p, f.create, f.serviceEventId);
    if reply.result.Success? {
      StoreRecordDelivery(AfterCalendar(w, reply), assistantNumber, clientNumber, busi, apps, client, p, f,
                          AppointmentRecord(Get(p, "service_name"), reply.result.value.id, employee.name));
    }
  }

  /** Whether the confirmation is delivered changes the outbox and nothing else. */
  lemma DeliveryOnlyAffectsOutbox(w: World, assistantNumber: string, clientNumber: string, payload: Fields, f: SaveFaults)
    ensures SameButOutbox(Reconcile(w, assistantNumber, clientNumber, payload, f.(notificationDelivered := true)),
                          Reconcile(w, assistantNumber, clientNumber, payload, f.(notificationDelivered := false)), w)
  {
    if !f.businessReadFails && !f.appointmentReadFails && EmployeeFor(w, assistantNumber, payload).Some? {
      var f1, f0 := f.(notificationDelivered := true), f.(notificationDelivered := false);
      Routes(w, assistantNumber, clientNumber, payload, f1);
      Routes(w, assistantNumber, clientNumber, payload, f0);
      var busi := w.businesses[assistantNumber];
      var employee := EmployeeFor(w, assistantNumber, payload).value.1;
      var p := ResolveService(payload);
      var prior := PriorRecord(w.table, assistantNumber, clientNumber, payload);
      if prior.Some? {
        UpdatePathDelivery(w, assistantNumber, clientNumber, busi, employee, prior.value, p, f);
      } else {
        CreatePathDelivery(w, assistantNumber, clientNumber, busi, employee,
                           GetAppointment(w.table, assistantNumber, clientNumber), ClientKey(p), p, f);
      }
    }
  }

  /** The ids of a list of tool outputs. */
  function OutputIds(outputs: seq<ToolOutput>): (r: seq<string>)
    ensures |r| == |outputs|
    ensures forall i :: 0 <= i < |outputs| ==> r[i] == outputs[i].toolCallId
  {
    seq(|outputs|, i requires 0 <= i < |outputs| => outputs[i].toolCallId)
  }

  /**
   * One tool call: the three known names answer under the call's id, any
   * other name is skipped; `guardar_reserva` answers "reserva guardada"
   * whatever the save did; the two tools first tell the client to wait, and
   * `cancelar_reserva` changes nothing.
   */
  lemma StepFacts(w: World, assistantNumber: string, clientNumber: string, call: ToolCall, o: ToolOracle)
    ensures var step := Step(w, assistantNumber, clientNumber, call, o);
      && (step.1.Some? <==> Handled(call.name))
      && (step.1.Some? ==> step.1.value.toolCallId == call.id)
      && (call.name == "guardar_reserva" ==> step.1.value.output == Literal(SavedOutput))
      && (call.name == "cancelar_reserva" ==> step.1.value.output == Literal(CancelledOutput))
      && (call.name != "guardar_reserva" && call.name != "consulta_reservas_confirmadas" ==> step.0 == w)
      && (call.name == "guardar_reserva" || call.name == "consulta_reservas_confirmadas" ==>
            var notice := if call.name == "guardar_reserva" then SavingNotice else QueryingNotice;
            |w.effects| < |step.0.effects| && step.0.effects[|w.effects|] == SendAttempt(Message(assistantNumber, clientNumber, Plain(notice))))
  {
    if call.name == "guardar_reserva" {
      var w1 := SendMessage(w, Message(assistantNumber, clientNumber, Plain(SavingNotice)), o.progressDelivered);
      NoConfirmationUnlessBooked(w1, assistantNumber, clientNumber, call.arguments, o.save);
      var after := Reconcile(w1, assistantNumber, clientNumber, call.arguments, o.save).world;
      assert after.effects[|w.effects|] == after.effects[..|w1.effects|][|w.effects|];
    }
  }

  /** The outputs submitted are one per handled call, in call order, under each call's id. */
  lemma {:induction false} DispatchAnswersHandledCalls(w: World, assistantNumber: string, clientNumber: string,
                                                       calls: seq<ToolCall>, oracles: seq<ToolOracle>)
    requires |oracles| == |calls|
    ensures OutputIds(Dispatch(w, assistantNumber, clientNumber, calls, oracles).outputs) == HandledIds(calls)
    decreases |calls|
  {
    if |calls| > 0 {
      var n := |calls| - 1;
      DispatchAnswersHandledCalls(w, assistantNumber, clientNumber, calls[..n], oracles[..n]);
      var before := Dispatch(w, assistantNumber, clientNumber, calls[..n], oracles[..n]);
      var step := Step(before.world, assistantNumber, clientNumber, calls[n], oracles[n]);
      var extra := if step.1.Some? then [step.1.value] else [];
      assert Dispatch(w, assistantNumber, clientNumber, calls, oracles).outputs == before.outputs + extra;
      assert OutputIds(extra) == if Handled(calls[n].name) then [calls[n].id] else [];
      assert OutputIds(before.outputs + extra) == OutputIds(before.outputs) + OutputIds(extra);
    }
  }

  /** Handling a batch of tool calls keeps the table invariant. */
  lemma {:induction false} DispatchKeepsValid(w: World, assistantNumber: string, clientNumber: string,
                                              calls: seq<ToolCall>, oracles: seq<ToolOracle>)
    requires |oracles| == |calls|
    requires ValidTable(w.table)
    ensures ValidTable(Dispatch(w, assistantNumber, clientNumber, calls, oracles).world.table)
    decreases |calls|
  {
    if |calls| > 0 {
      var n := |calls| - 1;
      DispatchKeepsValid(w, assistantNumber, clientNumber, calls[..n], oracles[..n]);
      var before := Dispatch(w, assistantNumber, clientNumber, calls[..n], oracles[..n]);
      if calls[n].name == "guardar_reserva" {
        var w1 := SendMessage(before.world, Message(assistantNumber, clientNumber, Plain(SavingNotice)), oracles[n].progressDelivered);
        ReconcileKeepsValid(w1, assistantNumber, clientNumber, calls[n].arguments, oracles[n].save);
      }
    }
  }

  /** A batch with neither a save nor a query leaves the world untouched. */
  lemma {:induction false} NoToolNoChange(w: World, assistantNumber: string, clientNumber: string,
                                          calls: seq<ToolCall>, oracles: seq<ToolOracle>)
    requires |oracles| == |calls|
    requires forall i :: 0 <= i < |calls| ==> calls[i].name != "guardar_reserva" && calls[i].name != "consulta_reservas_confirmadas"
    ensures Dispatch(w, assistantNumber, clientNumber, calls, oracles).world == w
    decreases |calls|
  {
    if |calls| > 0 {
      var n := |calls| - 1;
      NoToolNoChange(w, assistantNumber, clientNumber, calls[..n], oracles[..n]);
    }
  }
}
