/**
 * The booking logic of src/handlers/process-message.js: `saveEvent` (the
 * create-or-update reconciliation between a client's appointment list and the
 * employee's calendar), `getEvents` (the query tool), the tool-call dispatch
 * rule and the choice of the active run. Everything outside the process is a
 * `World` value: the business directory, the appointment table, the
 * calendars, the WhatsApp messages delivered, and the log of every request
 * that changes an external service. Which external calls fail is given by
 * oracle arguments.
 */
module Booking {
  import opened Wrappers
  import opened JsValues
  import opened Appointments
  import CalendarGateway

  /** A bookable person and the calendar that holds their events. */
  datatype Employee = Employee(name: string, calendarId: string)

  /** A business as read by assistant number: its roster (absent or not an array: None) and where to notify. */
  datatype Business = Business(employees: Option<seq<Employee>>, notificationsNumber: string)

  /** What a WhatsApp message says: fixed text, or the booking confirmation (lines 294-307). */
  datatype MessageBody =
    | Plain(text: string)
    | Confirmation(service: string, client: string, clientPhone: string, start: Value, end: Value)

  datatype Message = Message(from: string, to: string, body: MessageBody)

  /** A request issued to an external service that changes it. */
  datatype Effect =
    | CalendarCall(request: CalendarGateway.Request)
    | StorePut(item: Item)
    | SendAttempt(message: Message)

  datatype World = World(
    businesses: map<string, Business>,
    table: Table,
    calendars: CalendarGateway.Calendars,
    outbox: seq<Message>,          // messages delivered
    effects: seq<Effect>)          // requests issued, in order

  /** Which of the external calls of one `saveEvent` fail, and the id the calendar service picks on insert. */
  datatype SaveFaults = SaveFaults(
    businessReadFails: bool,
    appointmentReadFails: bool,
    patch: CalendarGateway.Fault,
    insert: CalendarGateway.Fault,
    create: CalendarGateway.Fault,
    serviceEventId: string,
    putFails: bool,
    notificationDelivered: bool)

  /** How one `saveEvent` ended (the source returns nothing; this names the path taken). */
  datatype Outcome =
    | ReadFailed                   // a read threw (caught at line 316)
    | NoBusiness                   // lines 220-223
    | NoEmployee                   // lines 226-229
    | CalendarFailed(error: CalendarGateway.GatewayError)
    | ListMissing                  // `appointments` truthy but not a client map: `push` throws after the insert
    | StoreFailed
    | Updated(eventId: string)
    | Created(eventId: string)

  datatype Reconciled = Reconciled(world: World, outcome: Outcome)

  const SavingNotice: string := "Estoy guardando la reserva, dame un momento"
  const QueryingNotice: string := "Estoy consultando la disponibilidad, dame un momento"
  const SavedOutput: string := "reserva guardada"
  const CancelledOutput: string := "reserva cancelada"

  function Lift(requests: seq<CalendarGateway.Request>): (r: seq<Effect>)
    ensures |r| == |requests|
    ensures forall i :: 0 <= i < |r| ==> r[i] == CalendarCall(requests[i])
  {
    seq(|requests|, i requires 0 <= i < |requests| => CalendarCall(requests[i]))
  }

  /** `whatsapp.sendMessage`: always attempted, delivered or not; failures are swallowed. */
  function SendMessage(w: World, m: Message, delivered: bool): (r: World)
    ensures r.table == w.table && r.calendars == w.calendars && r.businesses == w.businesses
    ensures r.effects == w.effects + [SendAttempt(m)]
    ensures r.outbox == w.outbox + (if delivered then [m] else [])
  {
    w.(effects := w.effects + [SendAttempt(m)], outbox := if delivered then w.outbox + [m] else w.outbox)
  }

  /** `employees.find(e => e.name === name)`. */
  function FindEmployee(roster: seq<Employee>, name: Value): (r: Option<Employee>)
    ensures r.Some? ==> r.value in roster && Str(r.value.name) == name
    ensures r.None? <==> forall i :: 0 <= i < |roster| ==> Str(roster[i].name) != name
    ensures r.Some? ==> exists i :: 0 <= i < |roster| && roster[i] == r.value && forall j :: 0 <= j < i ==> Str(roster[j].name) != name
  {
    Find(roster, (e: Employee) => Str(e.name) == name)
  }

  /** Line 231, `payload.service_name ||= payload.summary`. */
  function ResolveService(payload: Fields): (r: Fields)
    ensures Get(r, "service_name") ==
      if Falsy(Get(payload, "service_name")) then Get(payload, "summary") else Get(payload, "service_name")
    ensures forall k :: k != "service_name" ==> Get(r, k) == Get(payload, k)
    ensures !Falsy(Get(payload, "service_name")) ==> r == payload
  {
    if Falsy(Get(payload, "service_name")) then payload["service_name" := Get(payload, "summary")] else payload
  }

  /** The `appointments` attribute of an item, when it holds a client map. */
  function ClientMap(apps: Option<Item>): Option<map<string, seq<AppointmentRecord>>>
  {
    if apps.Some? && AppointmentsField in apps.value && apps.value[AppointmentsField].ClientLists?
    then Some(apps.value[AppointmentsField].lists) else None
  }

  /** `!apps?.appointments` (line 255). */
  predicate NoAppointments(apps: Option<Item>)
  {
    apps.None? || AppointmentsField !in apps.value
    || (apps.value[AppointmentsField].Val? && Falsy(apps.value[AppointmentsField].v))
  }

  /** `appointments[client]`, with no list read as empty. */
  function ListOf(lists: map<string, seq<AppointmentRecord>>, client: string): seq<AppointmentRecord>
  {
    if client in lists then lists[client] else []
  }

  /** Lines 233-234: the first record of the client's list whose service is strictly equal to `service`. */
  function ExistingRecord(apps: Option<Item>, client: string, service: Value): (r: Option<AppointmentRecord>)
    ensures r.Some? ==> ClientMap(apps).Some? && r.value in ListOf(ClientMap(apps).value, client) && r.value.service == service
    ensures r.None? <==> (ClientMap(apps).None? ||
      forall i :: 0 <= i < |ListOf(ClientMap(apps).value, client)| ==> ListOf(ClientMap(apps).value, client)[i].service != service)
    ensures r.Some? ==>
      var l := ListOf(ClientMap(apps).value, client);
      exists i :: 0 <= i < |l| && l[i] == r.value && forall j :: 0 <= j < i ==> l[j].service != service
  {
    match ClientMap(apps)
    case None => None
    case Some(lists) => Find(ListOf(lists, client), (rec: AppointmentRecord) => rec.service == service)
  }

  /**
   * The document written on the create path (lines 255-281): a fresh one
   * holding only this record, or the item read with `record` appended to the
   * client's list. None when `appointments` is truthy but not a client map.
   */
  function CreatedDocument(apps: Option<Item>, client: string, record: AppointmentRecord): Option<Item>
  {
    if NoAppointments(apps) then Some(map[AppointmentsField := ClientLists(map[client := [record]])])
    else match ClientMap(apps)
      case None => None
      case Some(lists) => Some(apps.value[AppointmentsField := ClientLists(lists[client := ListOf(lists, client) + [record]])])
  }

  /** Lines 294-307; None when reading `start.dateTime` or `end.dateTime` throws (start or end null or undefined). */
  function ConfirmationBody(payload: Fields, clientNumber: string): (r: Option<MessageBody>)
    ensures r.None? <==> Get(payload, "start") in {Undefined, Null} || Get(payload, "end") in {Undefined, Null}
  {
    var start, end := Get(payload, "start"), Get(payload, "end");
    if start == Undefined || start == Null || end == Undefined || end == Null then None
    else Some(Confirmation(ToJsString(Get(payload, "service_name")), ToJsString(Get(payload, "client_name")),
                           ReplaceFirst(clientNumber, "whatsapp:", ""), start, end))
  }

  /** Lines 293-314: compose and send the confirmation to the business's notification number. */
  function Notify(w: World, assistantNumber: string, clientNumber: string, busi: Business, payload: Fields, delivered: bool): (r: World)
    ensures r.businesses == w.businesses
  {
    match ConfirmationBody(payload, clientNumber)
    case None => w
    case Some(body) => SendMessage(w, Message(assistantNumber, busi.notificationsNumber, body), delivered)
  }

  /** The world after a calendar operation: its calendars, and its requests appended to the log. */
  function AfterCalendar(w: World, reply: CalendarGateway.Reply): World
  {
    w.(calendars := reply.calendars, effects := w.effects + Lift(reply.requests))
  }

  /** Lines 236-244 and the notification: patch the recorded event on the employee's calendar. */
  function UpdatePath(w: World, assistantNumber: string, clientNumber: string, busi: Business, employee: Employee,
                      existing: AppointmentRecord, payload: Fields, f: SaveFaults): (r: Reconciled)
    ensures r.outcome == Updated(existing.eventId) || r.outcome.CalendarFailed?
    ensures r.world.businesses == w.businesses
  {
    var reply := CalendarGateway.PatchEvent(w.calendars, employee.calendarId, existing.eventId, payload, f.patch, f.insert);
    AfterPatch(w, assistantNumber, clientNumber, busi, existing.eventId, payload, f.notificationDelivered, reply)
  }

  /** What follows the patch of event `eventId`: a thrown error ends the call, a success is confirmed. */
  function AfterPatch(w: World, assistantNumber: string, clientNumber: string, busi: Business, eventId: string,
                      payload: Fields, delivered: bool, reply: CalendarGateway.Reply): (r: Reconciled)
    ensures r.outcome == Updated(eventId) || r.outcome.CalendarFailed?
    ensures r.world.businesses == w.businesses
  {
    var w1 := AfterCalendar(w, reply);
    if reply.result.Failure? then Reconciled(w1, CalendarFailed(reply.result.error))
    else Reconciled(Notify(w1, assistantNumber, clientNumber, busi, payload, delivered), Updated(eventId))
  }

  /** Lines 255-290 and the notification: record the created event and write the whole document back. */
  function StoreRecord(w: World, assistantNumber: string, clientNumber: string, busi: Business,
                       apps: Option<Item>, client: string, payload: Fields, f: SaveFaults, record: AppointmentRecord): (r: Reconciled)
    ensures r.outcome.ListMissing? || r.outcome.StoreFailed? || r.outcome == Created(record.eventId)
    ensures r.world.businesses == w.businesses
  {
    match CreatedDocument(apps, client, record)
    case None => Reconciled(w, ListMissing)
    case Some(data) =>
      var w1 := w.(effects := w.effects + [StorePut(PutItem(assistantNumber, clientNumber, data))]);
      var put := PutAppointment(w.table, assistantNumber, clientNumber, data);
      if f.putFails || put.None? then Reconciled(w1, StoreFailed)
      else Reconciled(Notify(w1.(table := put.value), assistantNumber, clientNumber, busi, payload, f.notificationDelivered),
                      Created(record.eventId))
  }

  /** Lines 245-290 and the notification: insert an event, then record it. */
  function CreatePath(w: World, assistantNumber: string, clientNumber: string, busi: Business, employee: Employee,
                      apps: Option<Item>, client: string, payload: Fields, f: SaveFaults): (r: Reconciled)
    ensures r.outcome.CalendarFailed? || r.outcome.ListMissing? || r.outcome.StoreFailed? || r.outcome.Created?
    ensures r.world.businesses == w.businesses
  {
    var reply := CalendarGateway.CreateEvent(w.calendars, employee.calendarId, payload, f.create, f.serviceEventId);
    var w1 := AfterCalendar(w, reply);
    if reply.result.Failure? then Reconciled(w1, CalendarFailed(reply.result.error))
    else StoreRecord(w1, assistantNumber, clientNumber, busi, apps, client, payload, f,
                     AppointmentRecord(Get(payload, "service_name"), reply.result.value.id, employee.name))
  }

  /** The business and the employee named by the payload (lines 217-229): None when either is missing. */
  function EmployeeFor(w: World, assistantNumber: string, payload: Fields): (r: Option<(Business, Employee)>)
    ensures r.Some? <==> assistantNumber in w.businesses && w.businesses[assistantNumber].employees.Some?
                         && FindEmployee(w.businesses[assistantNumber].employees.value, Get(payload, "employee_name")).Some?
    ensures r.Some? ==> r.value.0 == w.businesses[assistantNumber] && r.value.1 in r.value.0.employees.value
                        && Str(r.value.1.name) == Get(payload, "employee_name")
  {
    if assistantNumber !in w.businesses || w.businesses[assistantNumber].employees.None? then None
    else
      var busi := w.businesses[assistantNumber];
      match FindEmployee(busi.employees.value, Get(payload, "employee_name"))
      case None => None
      case Some(employee) => Some((busi, employee))
  }

  /** The client's display name, used as the key of the client map (line 233). */
  function ClientKey(payload: Fields): string
  {
    ToJsString(Get(payload, "client_name"))
  }

  /** Lines 231-234: the stored record for this client and service, after `service_name ||= summary`. */
  function PriorRecord(t: Table, assistantNumber: string, clientNumber: string, payload: Fields): Option<AppointmentRecord>
  {
    var p := ResolveService(payload);
    ExistingRecord(GetAppointment(t, assistantNumber, clientNumber), ClientKey(p), Get(p, "service_name"))
  }

  /** `saveEvent` (lines 215-319). */
  function Reconcile(w: World, assistantNumber: string, clientNumber: string, payload: Fields, f: SaveFaults): (r: Reconciled)
    ensures r.outcome == ReadFailed <==> f.businessReadFails || f.appointmentReadFails
    ensures r.outcome.ReadFailed? || r.outcome.NoBusiness? || r.outcome.NoEmployee? ==> r.world == w
    ensures r.world.businesses == w.businesses
  {
    if f.businessReadFails || f.appointmentReadFails then Reconciled(w, ReadFailed)
    else if assistantNumber !in w.businesses || w.businesses[assistantNumber].employees.None? then Reconciled(w, NoBusiness)
    else match EmployeeFor(w, assistantNumber, payload)
      case None => Reconciled(w, NoEmployee)
      case Some((busi, employee)) =>
        var p := ResolveService(payload);
        match PriorRecord(w.table, assistantNumber, clientNumber, payload)
        case Some(existing) => UpdatePath(w, assistantNumber, clientNumber, busi, employee, existing, p, f)
        case None =>
          CreatePath(w, assistantNumber, clientNumber, busi, employee, GetAppointment(w.table, assistantNumber, clientNumber),
                     ClientKey(p), p, f)
  }

  /** One entry of the query tool's answer. */
  datatype EmployeeEvents = EmployeeEvents(employeeName: string, events: seq<Fields>)

  /** The event listing of each calendar, as the calendar service answers it. */
  type Listings = string -> CalendarGateway.Listing<Fields>

  function EventsOf(employee: Employee, listings: Listings): EmployeeEvents
  {
    EmployeeEvents(employee.name, CalendarGateway.GetEvents(listings(employee.calendarId)))
  }

  /** `getEvents` (lines 151-207), with the parallel fetch taken in roster order. */
  function QueryEvents(businesses: map<string, Business>, assistantNumber: string, args: Fields,
                       readFails: bool, listings: Listings): (r: seq<EmployeeEvents>)
    ensures readFails || assistantNumber !in businesses || businesses[assistantNumber].employees.None? ==> r == []
    ensures !readFails && assistantNumber in businesses && businesses[assistantNumber].employees.Some? ==>
      var roster := businesses[assistantNumber].employees.value;
      var name := Get(args, "employee_name");
      && (!Falsy(name) && FindEmployee(roster, name).None? ==> r == [])
      && (!Falsy(name) && FindEmployee(roster, name).Some? ==>
            r == [EventsOf(FindEmployee(roster, name).value, listings)] && Str(r[0].employeeName) == name)
      && (Falsy(name) ==> |r| == |roster| && forall i :: 0 <= i < |roster| ==> r[i] == EventsOf(roster[i], listings))
  {
    if readFails || assistantNumber !in businesses || businesses[assistantNumber].employees.None? then []
    else
      var roster := businesses[assistantNumber].employees.value;
      var name := Get(args, "employee_name");
      if !Falsy(name) then
        match FindEmployee(roster, name)
        case None => []
        case Some(employee) => [EventsOf(employee, listings)]
      else seq(|roster|, i requires 0 <= i < |roster| => EventsOf(roster[i], listings))
  }

  /** A tool call of a run that requires action; `arguments` is the parsed JSON object. */
  datatype ToolCall = ToolCall(id: string, name: string, arguments: Fields)

  /** A tool output: a fixed string, or the query answer (serialised with JSON.stringify). */
  datatype Output = Literal(text: string) | EventsJson(report: seq<EmployeeEvents>)

  datatype ToolOutput = ToolOutput(toolCallId: string, output: Output)

  /** What the outside world does during one tool call. */
  datatype ToolOracle = ToolOracle(progressDelivered: bool, save: SaveFaults, queryReadFails: bool, listings: Listings)

  datatype Dispatched = Dispatched(world: World, outputs: seq<ToolOutput>)

  /** The tool names that produce an output (lines 86, 93, 99). */
  predicate Handled(name: string)
  {
    name == "guardar_reserva" || name == "consulta_reservas_confirmadas" || name == "cancelar_reserva"
  }

  /** One iteration of the loop of lines 83-105. */
  function Step(w: World, assistantNumber: string, clientNumber: string, call: ToolCall, o: ToolOracle): (r: (World, Option<ToolOutput>))
    ensures r.1.Some? <==> Handled(call.name)
    ensures r.1.Some? ==> r.1.value.toolCallId == call.id
    ensures call.name != "guardar_reserva" && call.name != "consulta_reservas_confirmadas" ==> r.0 == w
  {
    if call.name == "guardar_reserva" then
      var w1 := SendMessage(w, Message(assistantNumber, clientNumber, Plain(SavingNotice)), o.progressDelivered);
      (Reconcile(w1, assistantNumber, clientNumber, call.arguments, o.save).world, Some(ToolOutput(call.id, Literal(SavedOutput))))
    else if call.name == "consulta_reservas_confirmadas" then
      var w1 := SendMessage(w, Message(assistantNumber, clientNumber, Plain(QueryingNotice)), o.progressDelivered);
      (w1, Some(ToolOutput(call.id, EventsJson(QueryEvents(w1.businesses, assistantNumber, call.arguments, o.queryReadFails, o.listings)))))
    else if call.name == "cancelar_reserva" then
      (w, Some(ToolOutput(call.id, Literal(CancelledOutput))))
    else (w, None)
  }

  /** The loop of lines 83-105 over the tool calls, in order. */
  function Dispatch(w: World, assistantNumber: string, clientNumber: string, calls: seq<ToolCall>, oracles: seq<ToolOracle>): (r: Dispatched)
    requires |oracles| == |calls|
    ensures |r.outputs| == |HandledIds(calls)|
    decreases |calls|
  {
    if |calls| == 0 then Dispatched(w, [])
    else
      var n := |calls| - 1;
      var before := Dispatch(w, assistantNumber, clientNumber, calls[..n], oracles[..n]);
      var (w1, out) := Step(before.world, assistantNumber, clientNumber, calls[n], oracles[n]);
      Dispatched(w1, before.outputs + (if out.Some? then [out.value] else []))
  }

  /** The ids of the handled calls, in order. */
  function HandledIds(calls: seq<ToolCall>): seq<string>
    decreases |calls|
  {
    if |calls| == 0 then []
    else HandledIds(calls[..|calls| - 1]) + (if Handled(calls[|calls| - 1].name) then [calls[|calls| - 1].id] else [])
  }

  /** A run of the thread, with its status. */
  datatype Run = Run(id: string, status: string)

  const TerminalStatuses: seq<string> := ["completed", "failed", "cancelled", "expired"]

  /** Line 43: the first listed run whose status is not terminal. */
  function ActiveRun(runs: seq<Run>): (r: Option<Run>)
    ensures r.None? <==> forall i :: 0 <= i < |runs| ==> runs[i].status in TerminalStatuses
    ensures r.Some? ==> (r.value.status !in TerminalStatuses &&
      exists i :: 0 <= i < |runs| && runs[i] == r.value && forall j :: 0 <= j < i ==> runs[j].status in TerminalStatuses)
  {
    Find(runs, (run: Run) => run.status !in TerminalStatuses)
  }
}
