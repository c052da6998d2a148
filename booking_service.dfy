/**
 * The handler's state-changing side: `saveEvent` and the tool-call loop as
 * methods of an object that owns the appointment table, the calendars, the
 * delivered messages and the request log. Each method is proved to leave the
 * object in the state the functions of `Booking` describe, and to keep the
 * table invariant of `BookingProperties`.
 */
module BookingService {
  import opened Wrappers
  import opened JsValues
  import opened Appointments
  import CalendarGateway
  import opened Booking
  import opened BookingProperties

  class Backend {
    const businesses: map<string, Business>
    var table: Table
    var calendars: CalendarGateway.Calendars
    var outbox: seq<Message>
    var effects: seq<Effect>

    /** The object's state as a `World` value. */
    function State(): World
      reads this
    {
      World(businesses, table, calendars, outbox, effects)
    }

    ghost predicate Valid()
      reads this
    {
      ValidTable(table)
    }

    constructor (businesses: map<string, Business>, table: Table, calendars: CalendarGateway.Calendars)
      requires ValidTable(table)
      ensures Valid()
      ensures State() == World(businesses, table, calendars, [], [])
    {
      this.businesses := businesses;
      this.table := table;
      this.calendars := calendars;
      outbox := [];
      effects := [];
    }

    /** `whatsapp.sendMessage`: the attempt is logged, the message kept only when delivered; it never throws. */
    method SendMessage(m: Message, delivered: bool)
      modifies this
      ensures State() == Booking.SendMessage(old(State()), m, delivered)
    {
      effects := effects + [SendAttempt(m)];
      if delivered {
        outbox := outbox + [m];
      }
    }

    /** Lines 293-314: compose the confirmation and send it to the business's notification number. */
    method Confirm(assistantNumber: string, clientNumber: string, busi: Business, payload: Fields, delivered: bool)
      modifies this
      ensures State() == Notify(old(State()), assistantNumber, clientNumber, busi, payload, delivered)
    {
      var body := ConfirmationBody(payload, clientNumber);
      if body.None? {
        // reading `dateTime` of a missing start or end throws, caught at line 316
        return;
      }
      SendMessage(Message(assistantNumber, busi.notificationsNumber, body.value), delivered);
    }

    /** Lines 236-244, then the confirmation: patch the recorded event. */
    method UpdateBooking(assistantNumber: string, clientNumber: string, busi: Business, employee: Employee,
                         existing: AppointmentRecord, payload: Fields, faults: SaveFaults)
      modifies this
      ensures State() == UpdatePath(old(State()), assistantNumber, clientNumber, busi, employee, existing, payload, faults).world
    {
      var reply := CalendarGateway.PatchEvent(calendars, employee.calendarId, existing.eventId, payload, faults.patch, faults.insert);
      calendars := reply.calendars;
      effects := effects + Lift(reply.requests);
      if reply.result.Failure? {
        return;
      }
      Confirm(assistantNumber, clientNumber, busi, payload, faults.notificationDelivered);
    }

    /** Lines 255-290, then the confirmation: add the record to the document (in place) and write it back. */
    method RecordBooking(assistantNumber: string, clientNumber: string, busi: Business, apps: Option<Item>,
                         client: string, payload: Fields, faults: SaveFaults, record: AppointmentRecord)
      modifies this
      ensures State() == StoreRecord(old(State()), assistantNumber, clientNumber, busi, apps, client, payload, faults, record).world
    {
      var document: Item;
      if NoAppointments(apps) {
        document := map[AppointmentsField := ClientLists(map[client := [record]])];
      } else if ClientMap(apps).Some? {
        var lists := ClientMap(apps).value;
        if client !in lists {
          lists := lists[client := []];
        }
        lists := lists[client := lists[client] + [record]];
        assert lists == ClientMap(apps).value[client := ListOf(ClientMap(apps).value, client) + [record]];
        document := apps.value[AppointmentsField := ClientLists(lists)];
      } else {
        // `push` on the missing list throws a TypeError, caught at line 316
        return;
      }
      assert Some(document) == CreatedDocument(apps, client, record);
      effects := effects + [StorePut(PutItem(assistantNumber, clientNumber, document))];
      var put := PutAppointment(table, assistantNumber, clientNumber, document);
      if faults.putFails || put.None? {
        return;
      }
      table := put.value;
      Confirm(assistantNumber, clientNumber, busi, payload, faults.notificationDelivered);
    }

    /** Lines 245-253, then the recording: insert a new event. */
    method CreateBooking(assistantNumber: string, clientNumber: string, busi: Business, employee: Employee,
                         apps: Option<Item>, client: string, payload: Fields, faults: SaveFaults)
      modifies this
      ensures State() == CreatePath(old(State()), assistantNumber, clientNumber, busi, employee, apps, client, payload, faults).world
    {
      var reply := CalendarGateway.CreateEvent(calendars, employee.calendarId, payload, faults.create, faults.serviceEventId);
      calendars := reply.calendars;
      effects := effects + Lift(reply.requests);
      if reply.result.Failure? {
        return;
      }
      RecordBooking(assistantNumber, clientNumber, busi, apps, client, payload, faults,
                    AppointmentRecord(Get(payload, "service_name"), reply.result.value.id, employee.name));
    }

    /** `saveEvent` (src/handlers/process-message.js, lines 215-319). */
    method SaveEvent(assistantNumber: string, clientNumber: string, payload: Fields, faults: SaveFaults)
      requires Valid()
      modifies this
      ensures Valid()
      ensures State() == Reconcile(old(State()), assistantNumber, clientNumber, payload, faults).world
    {
      ghost var w := State();
      ReconcileKeepsValid(w, assistantNumber, clientNumber, payload, faults);
      if faults.businessReadFails || faults.appointmentReadFails {
        return;
      }
      var busi: Option<Business> := if assistantNumber in businesses then Some(businesses[assistantNumber]) else None;
      var apps := GetAppointment(table, assistantNumber, clientNumber);
      if busi.None? || busi.value.employees.None? {
        return;
      }
      var employee := FindEmployee(busi.value.employees.value, Get(payload, "employee_name"));
      if employee.None? {
        return;
      }
      assert EmployeeFor(w, assistantNumber, payload) == Some((busi.value, employee.value));
      Routes(w, assistantNumber, clientNumber, payload, faults);

      var p := payload;
      if Falsy(Get(p, "service_name")) {
        p := p["service_name" := Get(p, "summary")];
      }
      assert p == ResolveService(payload);
      var client := ToJsString(Get(p, "client_name"));
      var existing := ExistingRecord(apps, client, Get(p, "service_name"));
      if existing.Some? {
        UpdateBooking(assistantNumber, clientNumber, busi.value, employee.value, existing.value, p, faults);
      } else {
        CreateBooking(assistantNumber, clientNumber, busi.value, employee.value, apps, client, p, faults);
      }
    }

    /**
     * The tool-call loop (src/handlers/process-message.js, lines 80-105):
     * handles the calls in order and returns the outputs to submit.
     */
    method HandleToolCalls(assistantNumber: string, clientNumber: string, calls: seq<ToolCall>, oracles: seq<ToolOracle>)
      returns (toolOutputs: seq<ToolOutput>)
      requires Valid()
      requires |oracles| == |calls|
      modifies this
      ensures Valid()
      ensures Dispatch(old(State()), assistantNumber, clientNumber, calls, oracles) == Dispatched(State(), toolOutputs)
    {
      toolOutputs := [];
      for i := 0 to |calls|
        invariant Valid()
        invariant Dispatch(old(State()), assistantNumber, clientNumber, calls[..i], oracles[..i]) == Dispatched(State(), toolOutputs)
      {
        assert calls[..i + 1][..i] == calls[..i] && oracles[..i + 1][..i] == oracles[..i];
        var call, o := calls[i], oracles[i];
        if call.name == "guardar_reserva" {
          SendMessage(Message(assistantNumber, clientNumber, Plain(SavingNotice)), o.progressDelivered);
          SaveEvent(assistantNumber, clientNumber, call.arguments, o.save);
          toolOutputs := toolOutputs + [ToolOutput(call.id, Literal(SavedOutput))];
        } else if call.name == "consulta_reservas_confirmadas" {
          SendMessage(Message(assistantNumber, clientNumber, Plain(QueryingNotice)), o.progressDelivered);
          var report := QueryEvents(businesses, assistantNumber, call.arguments, o.queryReadFails, o.listings);
          toolOutputs := toolOutputs + [ToolOutput(call.id, EventsJson(report))];
        } else if call.name == "cancelar_reserva" {
          toolOutputs := toolOutputs + [ToolOutput(call.id, Literal(CancelledOutput))];
        }
      }
      assert calls[..|calls|] == calls && oracles[..|oracles|] == oracles;
    }
  }
}
