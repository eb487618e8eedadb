/** The appointment page (AppointmentManagement.tsx): loading the hospital's appointments
    with patient and doctor snapshots, the day filter, and the confirm / cancel transitions
    with their banner and notification. */
module Appointments {
  import opened Wrappers
  import opened Text
  import opened Seqs
  import opened JsObjects
  import opened Http
  import Storage
  import opened Notifications

  datatype PatientData = PatientData(id: Option<string>, name: string, email: string, phone: string, bloodType: string)

  datatype DoctorData = DoctorData(id: Option<string>, name: string, specialty: string, email: string)

  datatype Appointment = Appointment(
    id: string,
    patientId: string,
    doctorId: string,
    date: string,
    time: string,
    reason: string,
    notes: string,
    status: string,
    patientData: Option<PatientData>,
    doctorData: Option<DoctorData>)

  /** The body of `GET /appointments/hospital/appointments`. */
  datatype Schedule = Schedule(today: seq<Appointment>, upcoming: seq<Appointment>, past: seq<Appointment>)

  datatype Body = EmptyBody | ReasonBody(reason: string)

  /** A transition request: where it goes, its HTTP method, its `Authorization` header, its body. */
  datatype Request = Request(endpoint: string, verb: string, authorization: string, body: Body)

  // ---------------------------------------------------------------------------------------
  // Snapshots: `fetchPatientData` / `fetchDoctorData` after their request settled.

  /** What a snapshot shows for a contact field the backend leaves empty. */
  const Placeholder := "N/A"

  /** A patient snapshot: `null` unless the request succeeded; every displayed field that
      the backend leaves empty gets a placeholder, so none of them is ever empty. */
  function PatientSnapshot(reply: Reply<JsObject>): (r: Option<PatientData>)
    ensures r.Some? <==> reply.Ok?
    ensures r.Some? ==> r.value.name != "" && r.value.email != "" && r.value.phone != "" && r.value.bloodType != ""
    ensures r.Some? && Truthy(Get(reply.body, "full_name")) ==> r.value.name == Get(reply.body, "full_name").value
    ensures r.Some? && !Truthy(Get(reply.body, "full_name")) ==> r.value.name == "Unknown Patient"
    ensures r.Some? ==> r.value.id == Get(reply.body, "id")
    ensures r.Some? ==> r.value.email == (if Truthy(Get(reply.body, "email")) then Get(reply.body, "email").value else Placeholder)
    ensures r.Some? ==> r.value.phone == (if Truthy(Get(reply.body, "phone")) then Get(reply.body, "phone").value else Placeholder)
    ensures r.Some? ==> r.value.bloodType == (if Truthy(Get(reply.body, "blood_type")) then Get(reply.body, "blood_type").value else Placeholder)
  {
    match reply
    case Ok(data) =>
      Some(PatientData(
        Get(data, "id"),
        Or(Get(data, "full_name"), "Unknown Patient"),
        Or(Get(data, "email"), Placeholder),
        Or(Get(data, "phone"), Placeholder),
        Or(Get(data, "blood_type"), Placeholder)))
    case NotOk(_) => None
    case Thrown(_) => None
  }

  /** A doctor snapshot: `null` unless the request succeeded; the name, specialty (the
      backend's `department`) and email are never empty. */
  function DoctorSnapshot(reply: Reply<JsObject>): (r: Option<DoctorData>)
    ensures r.Some? <==> reply.Ok?
    ensures r.Some? ==> r.value.name != "" && r.value.specialty != "" && r.value.email != ""
    ensures r.Some? && !Truthy(Get(reply.body, "full_name")) ==> r.value.name == "Unknown Doctor"
    ensures r.Some? && !Truthy(Get(reply.body, "department")) ==> r.value.specialty == "General Practice"
    ensures r.Some? ==> r.value.id == Get(reply.body, "id")
    ensures r.Some? ==> r.value.name == (if Truthy(Get(reply.body, "full_name")) then Get(reply.body, "full_name").value else "Unknown Doctor")
    ensures r.Some? ==> r.value.specialty == (if Truthy(Get(reply.body, "department")) then Get(reply.body, "department").value else "General Practice")
    ensures r.Some? ==> r.value.email == (if Truthy(Get(reply.body, "email")) then Get(reply.body, "email").value else Placeholder)
  {
    match reply
    case Ok(data) =>
      Some(DoctorData(
        Get(data, "id"),
        Or(Get(data, "full_name"), "Unknown Doctor"),
        Or(Get(data, "department"), "General Practice"),
        Or(Get(data, "email"), Placeholder)))
    case NotOk(_) => None
    case Thrown(_) => None
  }

  /** `[...data.today, ...data.upcoming, ...data.past]`. */
  function AllOf(s: Schedule): seq<Appointment>
  {
    s.today + s.upcoming + s.past
  }

  /** Every appointment with the snapshots of its patient and doctor; the request for a
      patient id settles as `patients(id)`, the one for a doctor id as `doctors(id)`.
      Nothing but the two snapshot fields changes. */
  function Enriched(apts: seq<Appointment>, patients: string -> Reply<JsObject>, doctors: string -> Reply<JsObject>)
    : (r: seq<Appointment>)
    ensures |r| == |apts|
    ensures forall i :: 0 <= i < |apts| ==>
      r[i].(patientData := apts[i].patientData, doctorData := apts[i].doctorData) == apts[i]
    ensures forall i :: 0 <= i < |apts| ==>
      r[i].patientData == PatientSnapshot(patients(apts[i].patientId)) &&
      r[i].doctorData == DoctorSnapshot(doctors(apts[i].doctorId))
  {
    if apts == [] then []
    else
      var a := apts[0];
      [a.(patientData := PatientSnapshot(patients(a.patientId)), doctorData := DoctorSnapshot(doctors(a.doctorId)))]
        + Enriched(apts[1..], patients, doctors)
  }

  /** The loaded list: today's appointments first, then the upcoming ones, then the past
      ones, each group in the backend's order. */
  lemma LoadedOrder(s: Schedule, patients: string -> Reply<JsObject>, doctors: string -> Reply<JsObject>)
    ensures var loaded := Enriched(AllOf(s), patients, doctors);
      |loaded| == |s.today| + |s.upcoming| + |s.past| &&
      (forall i :: 0 <= i < |s.today| ==> loaded[i].id == s.today[i].id) &&
      (forall j :: 0 <= j < |s.upcoming| ==> loaded[|s.today| + j].id == s.upcoming[j].id) &&
      (forall j :: 0 <= j < |s.past| ==> loaded[|s.today| + |s.upcoming| + j].id == s.past[j].id)
  {
    var all := AllOf(s);
    assert forall i :: 0 <= i < |s.today| ==> all[i] == s.today[i];
    assert forall j :: 0 <= j < |s.upcoming| ==> all[|s.today| + j] == s.upcoming[j];
    assert forall j :: 0 <= j < |s.past| ==> all[|s.today| + |s.upcoming| + j] == s.past[j];
  }

  // ---------------------------------------------------------------------------------------
  // The day filter and the actions offered on each card.

  function ShownOn(selectedDate: string): Appointment -> bool
  {
    (a: Appointment) => a.date == selectedDate && a.status != "cancelled"
  }

  /** `filteredAppointments`: the appointments of the selected day that are not cancelled,
      in the loaded order. */
  function Filtered(apts: seq<Appointment>, selectedDate: string): (r: seq<Appointment>)
    ensures forall a :: a in r <==> a in apts && a.date == selectedDate && a.status != "cancelled"
    ensures IsSubsequence(r, apts)
  {
    Filter(apts, ShownOn(selectedDate))
  }

  /** The buttons of an appointment card: Confirm only for a pending appointment, Cancel always. */
  function CardActions(a: Appointment): seq<string>
  {
    if a.status == "pending" then ["confirm", "cancel"] else ["cancel"]
  }

  /** The transition buttons of the details dialog: Confirm only for a pending appointment. */
  function DialogActions(a: Appointment): seq<string>
  {
    if a.status == "pending" then ["confirm"] else []
  }

  /** Every card on screen offers Cancel, a completed appointment included; Confirm is
      offered exactly for the pending ones. */
  lemma DisplayedActions(apts: seq<Appointment>, selectedDate: string, a: Appointment)
    requires a in Filtered(apts, selectedDate)
    ensures "cancel" in CardActions(a)
    ensures "confirm" in CardActions(a) <==> a.status == "pending"
    ensures "confirm" in DialogActions(a) <==> a.status == "pending"
    ensures a.status != "cancelled" && a.date == selectedDate
  {
  }

  // ---------------------------------------------------------------------------------------
  // Messages.

  /** The text of the "Today's Appointments" notification: "appointment" takes an "s"
      unless there is exactly one. */
  function TodayMessage(count: nat): (m: string)
    ensures count == 1 ==> m == "You have " + "1" + " appointment scheduled for today"
    ensures count != 1 ==> m == "You have " + NatToString(count) + " appointments" + " scheduled for today"
  {
    "You have " + NatToString(count) + " appointment" + PluralSuffix(count) + " scheduled for today"
  }

  /** The summary notification added after a load: only when today has appointments. */
  function TodaySummary(today: seq<Appointment>): (r: Option<Draft>)
    ensures r.Some? <==> |today| > 0
    ensures r.Some? ==> r.value.title == "Today's Appointments" && r.value.kind == "info"
    ensures r.Some? ==> r.value.appointmentId.None?
    ensures r.Some? ==> r.value.message == TodayMessage(|today|)
  {
    if |today| > 0 then Some(Draft("Today's Appointments", TodayMessage(|today|), "info", None)) else None
  }

  /** The first loaded appointment with the given id (`appointments.find`). */
  function Find(apts: seq<Appointment>, id: string): (r: Option<Appointment>)
    ensures r.Some? ==> r.value in apts && r.value.id == id
    ensures r.None? <==> forall a :: a in apts ==> a.id != id
    ensures r.Some? ==> exists i :: 0 <= i < |apts| && apts[i] == r.value && forall j :: 0 <= j < i ==> apts[j].id != id
  {
    if apts == [] then None
    else if apts[0].id == id then Some(apts[0])
    else Find(apts[1..], id)
  }

  /** The notification a successful transition adds for a loaded appointment: `success`
      for a confirmation, `warning` otherwise, tied to the appointment's id. */
  function TransitionDraft(a: Appointment, status: string): (d: Draft)
    ensures d.kind == (if status == "confirmed" then "success" else "warning")
    ensures d.appointmentId == Some(a.id)
    ensures d.title == "Appointment " + status
  {
    var patient := if a.patientData.Some? then Some(a.patientData.value.name) else None;
    Draft(
      "Appointment " + status,
      "Patient " + Or(patient, a.patientId) + "'s appointment on " + a.date + " at " + a.time + " is now " + status,
      if status == "confirmed" then "success" else "warning",
      Some(a.id))
  }

  /** The request `updateAppointmentStatus` sends, or `None` when a cancellation has no
      reason and nothing is sent. Confirm posts an empty body to `/confirm`, cancel posts
      the reason to `/cancel`; the token goes into the header as it is, `null` included. */
  function StatusRequest(token: Option<string>, id: string, status: string, reason: Option<string>)
    : (r: Option<Request>)
    ensures r.None? <==> status == "cancelled" && !Truthy(reason)
    ensures r.Some? ==> r.value.verb == "POST"
    ensures r.Some? ==> r.value.authorization == "Bearer " + (if token.Some? then token.value else "null")
    ensures r.Some? && status == "confirmed" ==>
      r.value.endpoint == ApiBaseUrl + "/appointments/" + id + "/confirm" && r.value.body == EmptyBody
    ensures r.Some? && status == "cancelled" ==>
      r.value.endpoint == ApiBaseUrl + "/appointments/" + id + "/cancel" && r.value.body == ReasonBody(reason.value)
    ensures r.Some? && status != "confirmed" && status != "cancelled" ==>
      r.value.endpoint == ApiBaseUrl + "/appointments/" + id && r.value.body == EmptyBody
  {
    var header := "Bearer " + (if token.Some? then token.value else "null");
    var base := ApiBaseUrl + "/appointments/" + id;
    if status == "confirmed" then Some(Request(base + "/confirm", "POST", header, EmptyBody))
    else if status == "cancelled" then
      if Truthy(reason) then Some(Request(base + "/cancel", "POST", header, ReasonBody(reason.value))) else None
    else Some(Request(base, "POST", header, EmptyBody))
  }

  // ---------------------------------------------------------------------------------------

  /** The error banner's texts. */
  const FetchError := "Failed to fetch appointments"
  const UpdateError := "Failed to update appointment"

  /** The page's state: the loaded list, today's list, the banners and the loading flag. */
  class AppointmentPage {
    var appointments: seq<Appointment>
    var todayAppointments: seq<Appointment>
    var error: Option<string>
    var successMessage: Option<string>
    var isLoading: bool

    constructor ()
      ensures appointments == [] && todayAppointments == []
      ensures error.None? && successMessage.None? && isLoading
    {
      appointments, todayAppointments := [], [];
      error, successMessage := None, None;
      isLoading := true;
    }

    /** `fetchAppointments()`. The token is `auth_token`, else `token`; without one the page
        shows the login error and sends nothing. A non-2xx status and a rejection set the
        error and keep the list; a 2xx answer loads today, upcoming and past with their
        snapshots and, when today is not empty, adds the summary notification (its id and
        time come from the clock). Returns whether the request was sent. */
    method FetchAppointments(
      storage: Storage.LocalStorage, reply: Reply<Schedule>,
      patients: string -> Reply<JsObject>, doctors: string -> Reply<JsObject>,
      store: NotificationStore, noteId: string, now: string)
      returns (sent: bool)
      modifies this, store
      ensures sent <==> Truthy(Either(storage.GetItem("auth_token"), storage.GetItem("token")))
      ensures !isLoading && successMessage == old(successMessage)
      ensures !sent ==> error == Some(NoTokenError)
      ensures sent && reply.NotOk? ==> error == Some(FetchError)
      ensures sent && reply.Thrown? ==> error == Some(reply.message)
      ensures sent && reply.Ok? ==>
        error.None? &&
        appointments == Enriched(AllOf(reply.body), patients, doctors) &&
        todayAppointments == reply.body.today &&
        store.notifications ==
          (if |reply.body.today| > 0 then Added(old(store.notifications), TodaySummary(reply.body.today).value, noteId, now)
           else old(store.notifications))
      ensures !(sent && reply.Ok?) ==>
        appointments == old(appointments) && todayAppointments == old(todayAppointments) &&
        store.notifications == old(store.notifications)
    {
      isLoading := true;
      error := None;
      var token := Either(storage.GetItem("auth_token"), storage.GetItem("token"));
      if !Truthy(token) {
        error := Some(NoTokenError);
        isLoading := false;
        return false;
      }
      sent := true;
      match reply {
        case NotOk(_) =>
          error := Some(FetchError);
        case Thrown(message) =>
          error := Some(message);
        case Ok(data) =>
          appointments := Enriched(AllOf(data), patients, doctors);
          todayAppointments := data.today;
          var summary := TodaySummary(data.today);
          if summary.Some? {
            store.AddNotification(summary.value, noteId, now);
          }
      }
      isLoading := false;
    }

    /** `updateAppointmentStatus(id, status)` with the cancellation reason as an input.
        Without a reason a cancellation returns before anything happens. Otherwise the
        request is sent; on a 2xx answer the banner reads "Appointment <status>
        successfully!", a loaded appointment with that id gets its notification, and the
        page asks for a reload of the appointments and of the notifications (`reload`).
        A non-2xx answer or a rejection only sets the error. The loaded list itself is
        never edited. */
    method UpdateAppointmentStatus(
      storage: Storage.LocalStorage, id: string, status: string, reason: Option<string>,
      reply: Reply<JsObject>, store: NotificationStore, noteId: string, now: string)
      returns (request: Option<Request>, reload: bool)
      modifies this, store
      ensures request == StatusRequest(storage.GetItem("auth_token"), id, status, reason)
      ensures appointments == old(appointments) && todayAppointments == old(todayAppointments)
      ensures isLoading == old(isLoading)
      ensures reload <==> request.Some? && reply.Ok?
      ensures request.None? || !reply.Ok? ==>
        successMessage == old(successMessage) && store.notifications == old(store.notifications)
      ensures request.None? ==> error == old(error)
      ensures request.Some? && reply.NotOk? ==> error == Some(UpdateError)
      ensures request.Some? && reply.Thrown? ==> error == Some(reply.message)
      ensures request.Some? && reply.Ok? ==>
        error == old(error) &&
        successMessage == Some("Appointment " + status + " successfully!") &&
        store.notifications ==
          (match Find(appointments, id)
           case Some(a) => Added(old(store.notifications), TransitionDraft(a, status), noteId, now)
           case None => old(store.notifications))
    {
      var token := storage.GetItem("auth_token");
      request := StatusRequest(token, id, status, reason);
      reload := false;
      if request.None? {
        return;
      }
      match reply {
        case NotOk(_) =>
          error := Some(UpdateError);
        case Thrown(message) =>
          error := Some(message);
        case Ok(_) =>
          successMessage := Some("Appointment " + status + " successfully!");
          var apt := Find(appointments, id);
          if apt.Some? {
            store.AddNotification(TransitionDraft(apt.value, status), noteId, now);
          }
          reload := true;
      }
    }
  }
}
