/** The dashboard (Dashboard.tsx): today's first appointments and the availability
    manager with its eight time slots. */
module Dashboard {
  import opened Wrappers
  import opened Text
  import opened Seqs
  import opened JsObjects
  import opened Http
  import Storage
  import opened Appointments

  datatype TimeSlot = TimeSlot(id: string, time: string, available: bool)

  datatype Status = Available | Busy

  /** The body of `PUT /appointments/doctors/availability`. */
  datatype AvailabilityRequest = AvailabilityRequest(
    status: Status, availableFrom: string, availableUntil: string, date: string, slots: seq<string>)

  /** The part of a 2xx schedule answer the dashboard reads; `today` may be absent. */
  datatype TodayPayload = TodayPayload(today: Option<seq<Appointment>>)

  /** The banner under the form: a success or an error, with its text. */
  datatype Banner = Banner(success: bool, text: string)

  /** The eight slots the manager starts with, numbered from "1" and all available. */
  function InitialSlots(): (r: seq<TimeSlot>)
    ensures |r| == 8
    ensures forall i :: 0 <= i < |r| ==> r[i].id == NatToString(i + 1) && r[i].available
    ensures forall i, j :: 0 <= i < j < |r| ==> r[i].id != r[j].id && r[i].time != r[j].time
  {
    [ TimeSlot("1", "09:00 AM", true), TimeSlot("2", "10:00 AM", true),
      TimeSlot("3", "11:00 AM", true), TimeSlot("4", "12:00 PM", true),
      TimeSlot("5", "02:00 PM", true), TimeSlot("6", "03:00 PM", true),
      TimeSlot("7", "04:00 PM", true), TimeSlot("8", "05:00 PM", true) ]
  }

  /** `toggleSlotAvailability`: every slot with that id flips, the others stay. */
  function Toggled(slots: seq<TimeSlot>, slotId: string): (r: seq<TimeSlot>)
    ensures |r| == |slots|
    ensures forall i :: 0 <= i < |slots| ==> r[i].id == slots[i].id && r[i].time == slots[i].time
    ensures forall i :: 0 <= i < |slots| ==> (r[i].available <==> (slots[i].available != (slots[i].id == slotId)))
  {
    if slots == [] then []
    else
      var s := slots[0];
      [if s.id == slotId then s.(available := !s.available) else s] + Toggled(slots[1..], slotId)
  }

  /** Toggling the same slot twice restores the slots. */
  lemma {:induction false} ToggledTwice(slots: seq<TimeSlot>, slotId: string)
    ensures Toggled(Toggled(slots, slotId), slotId) == slots
  {
    var r := Toggled(Toggled(slots, slotId), slotId);
    assert |r| == |slots|;
    forall i | 0 <= i < |slots|
      ensures r[i] == slots[i]
    {
    }
  }

  /** `setAllSlots(available)`. */
  function WithAll(slots: seq<TimeSlot>, available: bool): (r: seq<TimeSlot>)
    ensures |r| == |slots|
    ensures forall i :: 0 <= i < |slots| ==> r[i] == slots[i].(available := available)
  {
    if slots == [] then [] else [slots[0].(available := available)] + WithAll(slots[1..], available)
  }

  function IsAvailable(s: TimeSlot): bool
  {
    s.available
  }

  /** Every slot's time, in slot order. */
  function Times(slots: seq<TimeSlot>): (r: seq<string>)
    ensures |r| == |slots|
    ensures forall i :: 0 <= i < |slots| ==> r[i] == slots[i].time
  {
    if slots == [] then [] else [slots[0].time] + Times(slots[1..])
  }

  /** The times of the available slots, in slot order (`availableSlots`). */
  function AvailableTimes(slots: seq<TimeSlot>): (r: seq<string>)
    ensures |r| <= |slots|
    ensures forall t :: t in r <==> exists s :: s in slots && s.available && s.time == t
    ensures IsSubsequence(r, Times(slots))
    ensures r == Times(Filter(slots, IsAvailable))
  {
    if slots == [] then []
    else
      var rest := AvailableTimes(slots[1..]);
      assert forall s :: s in slots <==> s == slots[0] || s in slots[1..];
      assert Times(slots)[1..] == Times(slots[1..]);
      if slots[0].available then
        var r := [slots[0].time] + rest;
        assert r[1..] == rest;
        var kept := Filter(slots, IsAvailable);
        assert kept == [slots[0]] + Filter(slots[1..], IsAvailable);
        assert kept[1..] == Filter(slots[1..], IsAvailable);
        r
      else rest
  }

  /** The "N of M" figure of the summary card. */
  function AvailableCount(slots: seq<TimeSlot>): (n: nat)
    ensures n <= |slots|
  {
    Count(slots, IsAvailable)
  }

  /** The request carries exactly as many times as the summary card counts. */
  lemma {:induction false} AvailableTimesCounted(slots: seq<TimeSlot>)
    ensures |AvailableTimes(slots)| == AvailableCount(slots)
  {
    if slots != [] {
      AvailableTimesCounted(slots[1..]);
      assert Count(slots, IsAvailable) == (if slots[0].available then 1 else 0) + Count(slots[1..], IsAvailable);
    }
  }

  /** "Select all" makes every slot count; "clear all" none. */
  lemma WithAllCounts(slots: seq<TimeSlot>, available: bool)
    ensures AvailableCount(WithAll(slots, available)) == (if available then |slots| else 0)
  {
    var r := WithAll(slots, available);
    assert forall i :: 0 <= i < |r| ==> IsAvailable(r[i]) == available;
  }

  /** The Save button is disabled while saving, and for a busy status until both ends of
      the availability window are filled in. */
  predicate SaveDisabled(isSaving: bool, status: Status, availableFrom: string, availableUntil: string)
  {
    isSaving || (status == Busy && (availableFrom == "" || availableUntil == ""))
  }

  /** No second save starts while one is in flight; an available doctor can save whatever
      the window; a busy one only with both ends of the window filled in, so an enabled
      Save never sends a busy status with an empty window. */
  lemma SaveGuard(isSaving: bool, status: Status, availableFrom: string, availableUntil: string)
    ensures isSaving ==> SaveDisabled(isSaving, status, availableFrom, availableUntil)
    ensures status == Available ==> (SaveDisabled(isSaving, status, availableFrom, availableUntil) <==> isSaving)
    ensures !SaveDisabled(isSaving, status, availableFrom, availableUntil) && status == Busy ==>
      availableFrom != "" && availableUntil != ""
    ensures !isSaving && status == Busy && availableFrom != "" && availableUntil != "" ==>
      !SaveDisabled(isSaving, status, availableFrom, availableUntil)
  {
  }

  /** At most the first four of today's appointments, in order. */
  function Recent(today: seq<Appointment>): (r: seq<Appointment>)
    ensures |r| <= 4 && r <= today
    ensures |today| >= 4 ==> |r| == 4
    ensures |today| < 4 ==> r == today
  {
    if |today| <= 4 then today else today[..4]
  }

  /** The dashboard's state. */
  class DashboardPage {
    var recentAppointments: seq<Appointment>
    var isLoading: bool
    var status: Status
    var availableFrom: string
    var availableUntil: string
    var selectedDate: string
    var timeSlots: seq<TimeSlot>
    var isSaving: bool
    var message: Option<Banner>

    /** The date defaults to today, which the clock supplies. */
    constructor (today: string)
      ensures recentAppointments == [] && isLoading
      ensures status == Available && availableFrom == "" && availableUntil == ""
      ensures selectedDate == today && timeSlots == InitialSlots()
      ensures !isSaving && message.None?
    {
      recentAppointments, isLoading := [], true;
      status, availableFrom, availableUntil := Available, "", "";
      selectedDate, timeSlots := today, InitialSlots();
      isSaving, message := false, None;
    }

    /** `fetchDashboardData()`: without a token nothing is sent; a 2xx answer keeps the
        first four of today's appointments (none when the answer has no list); anything
        else keeps the old ones. Loading ends in every case. Returns whether the request
        was sent. */
    method FetchDashboardData(storage: Storage.LocalStorage, reply: Reply<TodayPayload>) returns (sent: bool)
      modifies this
      ensures sent <==> Truthy(Either(storage.GetItem("auth_token"), storage.GetItem("token")))
      ensures !isLoading
      ensures recentAppointments == (if sent && reply.Ok? then Recent(reply.body.today.GetOr([])) else old(recentAppointments))
      ensures timeSlots == old(timeSlots) && message == old(message) && isSaving == old(isSaving)
      ensures status == old(status) && availableFrom == old(availableFrom) && availableUntil == old(availableUntil)
      ensures selectedDate == old(selectedDate)
    {
      var token := Either(storage.GetItem("auth_token"), storage.GetItem("token"));
      if !Truthy(token) {
        isLoading := false;
        return false;
      }
      sent := true;
      if reply.Ok? {
        recentAppointments := Recent(reply.body.today.GetOr([]));
      }
      isLoading := false;
    }

    method ChooseStatus(s: Status)
      modifies this
      ensures status == s
      ensures timeSlots == old(timeSlots) && availableFrom == old(availableFrom) && availableUntil == old(availableUntil)
      ensures selectedDate == old(selectedDate) && message == old(message) && isSaving == old(isSaving)
      ensures recentAppointments == old(recentAppointments) && isLoading == old(isLoading)
    {
      status := s;
    }

    /** The "from" / "until" inputs of the busy form and the date input. */
    method SetWindow(from: string, until: string, date: string)
      modifies this
      ensures availableFrom == from && availableUntil == until && selectedDate == date
      ensures timeSlots == old(timeSlots) && status == old(status)
      ensures message == old(message) && isSaving == old(isSaving)
      ensures recentAppointments == old(recentAppointments) && isLoading == old(isLoading)
    {
      availableFrom, availableUntil, selectedDate := from, until, date;
    }

    method ToggleSlotAvailability(slotId: string)
      modifies this
      ensures timeSlots == Toggled(old(timeSlots), slotId)
      ensures status == old(status) && availableFrom == old(availableFrom) && availableUntil == old(availableUntil)
      ensures selectedDate == old(selectedDate) && message == old(message) && isSaving == old(isSaving)
      ensures recentAppointments == old(recentAppointments) && isLoading == old(isLoading)
    {
      timeSlots := Toggled(timeSlots, slotId);
    }

    method SetAllSlots(available: bool)
      modifies this
      ensures timeSlots == WithAll(old(timeSlots), available)
      ensures AvailableCount(timeSlots) == (if available then |timeSlots| else 0)
      ensures status == old(status) && availableFrom == old(availableFrom) && availableUntil == old(availableUntil)
      ensures selectedDate == old(selectedDate) && message == old(message) && isSaving == old(isSaving)
      ensures recentAppointments == old(recentAppointments) && isLoading == old(isLoading)
    {
      WithAllCounts(timeSlots, available);
      timeSlots := WithAll(timeSlots, available);
    }

    /** `handleSaveStatus()`: sends the status, the window, the date and the times of the
        available slots (no `Authorization` header). A 2xx answer shows the success
        banner; otherwise the banner shows the backend's `error`, else the fixed text, or
        the rejection's message. Saving is over afterwards; the slots are untouched. */
    method HandleSaveStatus(reply: Reply<JsObject>) returns (request: AvailabilityRequest)
      modifies this
      ensures request == AvailabilityRequest(status, availableFrom, availableUntil, selectedDate, AvailableTimes(timeSlots))
      ensures |request.slots| == AvailableCount(timeSlots)
      ensures !isSaving
      ensures reply.Ok? ==> message == Some(Banner(true, "Availability updated successfully!"))
      ensures reply.NotOk? ==> message == Some(Banner(false, Or(Get(reply.errorBody, "error"), "Failed to update availability")))
      ensures reply.Thrown? ==> message == Some(Banner(false, reply.message))
      ensures timeSlots == old(timeSlots) && status == old(status) && selectedDate == old(selectedDate)
      ensures availableFrom == old(availableFrom) && availableUntil == old(availableUntil)
      ensures recentAppointments == old(recentAppointments) && isLoading == old(isLoading)
    {
      isSaving := true;
      message := None;
      AvailableTimesCounted(timeSlots);
      request := AvailabilityRequest(status, availableFrom, availableUntil, selectedDate, AvailableTimes(timeSlots));
      match reply {
        case Ok(_) =>
          message := Some(Banner(true, "Availability updated successfully!"));
        case NotOk(body) =>
          message := Some(Banner(false, Or(Get(body, "error"), "Failed to update availability")));
        case Thrown(m) =>
          message := Some(Banner(false, m));
      }
      isSaving := false;
    }
  }
}
