/** The availability page (AvailabilitySlots.tsx): the hospital's slot list, the form that
    creates a slot, and enabling or disabling a slot. */
module Availability {
  import opened Wrappers
  import opened Text
  import opened JsObjects
  import opened Http
  import Storage

  /** A slot as the backend lists it. */
  datatype Slot = Slot(
    id: string, doctorId: string, doctorName: Option<string>, date: string,
    startTime: string, endTime: string, durationMinutes: int, isAvailable: bool, createdAt: string)

  /** The body of a 2xx answer to the slots request; `availabilities` may be absent. */
  datatype SlotsPayload = SlotsPayload(availabilities: Option<seq<Slot>>)

  /** The creation form; it is also the body of `POST /availability/create`. */
  datatype SlotForm = SlotForm(doctorId: string, date: string, startTime: string, endTime: string, durationMinutes: int)

  /** The text inputs of the form. */
  datatype TextField = DoctorId | Date | StartTime | EndTime

  /** The form as it opens and as it is reset after a creation. */
  function EmptyForm(): SlotForm
  {
    SlotForm("", "", "", "", 30)
  }

  /** The values the duration selector offers, in minutes. */
  const DurationOptions: seq<nat> := [15, 30, 45, 60, 90]

  /** `handleInputChange` for a text input: the value is kept as typed. */
  function WithText(form: SlotForm, f: TextField, value: string): SlotForm
  {
    match f
    case DoctorId => form.(doctorId := value)
    case Date => form.(date := value)
    case StartTime => form.(startTime := value)
    case EndTime => form.(endTime := value)
  }

  /** `handleInputChange` for the duration selector: the option's text goes through
      `parseInt`. */
  function WithDuration(form: SlotForm, text: string): (r: SlotForm)
    requires IsDecimal(text)
    ensures r.durationMinutes >= 0
    ensures r.(durationMinutes := form.durationMinutes) == form
  {
    form.(durationMinutes := ParseNat(text))
  }

  /** Choosing an option stores exactly that option's number of minutes. */
  lemma DurationOptionRoundTrip(form: SlotForm, i: nat)
    requires i < |DurationOptions|
    ensures WithDuration(form, NatToString(DurationOptions[i])).durationMinutes == DurationOptions[i]
  {
    ParseNatToString(DurationOptions[i]);
  }

  /** The doctor id a creation uses: the form's, else the signed-in user's id; `None`
      when neither is set. */
  function ChooseDoctorId(formDoctorId: string, userId: Option<string>): (r: Option<string>)
    ensures r.None? <==> formDoctorId == "" && !Truthy(userId)
    ensures r.Some? ==> r.value != ""
    ensures formDoctorId != "" ==> r == Some(formDoctorId)
  {
    if formDoctorId != "" then Some(formDoctorId) else if Truthy(userId) then userId else None
  }

  /** After the reset that follows a creation, the next creation still uses the
      signed-in user's id. */
  lemma ResetFormUsesUser(userId: Option<string>)
    requires Truthy(userId)
    ensures ChooseDoctorId(EmptyForm().doctorId, userId) == userId
  {
  }

  /** The heading of a slot card. */
  function CardTitle(s: Slot): (t: string)
    ensures Truthy(s.doctorName) ==> t == "Doctor: " + s.doctorName.value
    ensures !Truthy(s.doctorName) ==> t == "Doctor: " + s.doctorId
  {
    "Doctor: " + Or(s.doctorName, s.doctorId)
  }

  /** The status badge of a card. */
  function StatusLabel(s: Slot): (r: string)
    ensures r == "Available" <==> s.isAvailable
    ensures r == "Available" || r == "Unavailable"
  {
    assert "Unavailable"[0] != "Available"[0];
    if s.isAvailable then "Available" else "Unavailable"
  }

  /** The toggle button of a card offers the opposite of what the badge shows. */
  function ToggleLabel(s: Slot): (r: string)
    ensures r == "Disable" <==> s.isAvailable
    ensures r == "Disable" || r == "Enable"
  {
    assert "Enable"[0] != "Disable"[0];
    if s.isAvailable then "Disable" else "Enable"
  }

  /** The banners after a toggle. */
  const DisabledMessage := "Availability disabled successfully!"
  const EnabledMessage := "Availability enabled successfully!"

  /** The banner after a toggle names the change from the status the card showed: it says
      "disabled" exactly when the slot was available, i.e. when the button read Disable. */
  function ToggleMessage(currentStatus: bool): (r: string)
    ensures r == DisabledMessage <==> currentStatus
    ensures r == DisabledMessage || r == EnabledMessage
  {
    assert DisabledMessage[13] != EnabledMessage[13];
    if currentStatus then DisabledMessage else EnabledMessage
  }

  /** `${API_BASE_URL}/availability/hospital/${hospitalId}/slots`; a missing id prints as `null`. */
  function SlotsUrl(hospitalId: Option<string>): string
  {
    ApiBaseUrl + "/availability/hospital/" + (if hospitalId.Some? then hospitalId.value else "null") + "/slots"
  }

  /** Two stored ids fetch the same list only when they are equal; a missing id fetches the
      list of a hospital whose id is the text "null". */
  lemma {:induction false} SlotsUrlNamesHospital(a: string, b: string)
    ensures SlotsUrl(Some(a)) == SlotsUrl(Some(b)) ==> a == b
    ensures SlotsUrl(None) == SlotsUrl(Some("null"))
  {
    var prefix := ApiBaseUrl + "/availability/hospital/";
    var ua, ub := SlotsUrl(Some(a)), SlotsUrl(Some(b));
    if ua == ub {
      assert ua == prefix + a + "/slots" && ub == prefix + b + "/slots";
      assert |a| == |b|;
      assert a == ua[|prefix|..|prefix| + |a|];
      assert b == ub[|prefix|..|prefix| + |b|];
    }
  }

  class AvailabilityPage {
    var availabilities: seq<Slot>
    var isLoading: bool
    var error: Option<string>
    var successMessage: Option<string>
    var formData: SlotForm

    constructor ()
      ensures availabilities == [] && isLoading && error.None? && successMessage.None?
      ensures formData == EmptyForm()
    {
      availabilities, isLoading, error, successMessage := [], true, None, None;
      formData := EmptyForm();
    }

    /** The mount effect's form part: a signed-in user's id fills the doctor id. */
    method Mount(storage: Storage.LocalStorage)
      modifies this
      ensures Truthy(storage.GetItem("user_id")) ==>
        formData == old(formData).(doctorId := storage.GetItem("user_id").value)
      ensures !Truthy(storage.GetItem("user_id")) ==> formData == old(formData)
      ensures availabilities == old(availabilities) && isLoading == old(isLoading)
      ensures error == old(error) && successMessage == old(successMessage)
    {
      var userId := storage.GetItem("user_id");
      if Truthy(userId) {
        formData := formData.(doctorId := userId.value);
      }
    }

    /** `fetchAvailabilities()`: the slots of the hospital named by `user_id`; a non-2xx
        answer or a rejection sets the error and keeps the list; a 2xx answer without a list
        empties it. Returns the URL asked. */
    method FetchAvailabilities(storage: Storage.LocalStorage, reply: Reply<SlotsPayload>) returns (url: string)
      modifies this
      ensures url == SlotsUrl(storage.GetItem("user_id"))
      ensures !isLoading && formData == old(formData) && successMessage == old(successMessage)
      ensures reply.Ok? ==> availabilities == reply.body.availabilities.GetOr([]) && error.None?
      ensures reply.NotOk? ==> availabilities == old(availabilities) && error == Some("Failed to fetch availability slots")
      ensures reply.Thrown? ==> availabilities == old(availabilities) && error == Some(reply.message)
    {
      isLoading := true;
      error := None;
      url := SlotsUrl(storage.GetItem("user_id"));
      match reply {
        case Ok(data) =>
          availabilities := data.availabilities.GetOr([]);
        case NotOk(_) =>
          error := Some("Failed to fetch availability slots");
        case Thrown(m) =>
          error := Some(m);
      }
      isLoading := false;
    }

    method HandleTextChange(f: TextField, value: string)
      modifies this
      ensures formData == WithText(old(formData), f, value)
      ensures availabilities == old(availabilities) && isLoading == old(isLoading)
      ensures error == old(error) && successMessage == old(successMessage)
    {
      formData := WithText(formData, f, value);
    }

    method HandleDurationChange(text: string)
      requires IsDecimal(text)
      modifies this
      ensures formData == WithDuration(old(formData), text)
      ensures availabilities == old(availabilities) && isLoading == old(isLoading)
      ensures error == old(error) && successMessage == old(successMessage)
    {
      formData := WithDuration(formData, text);
    }

    /** `handleAddAvailability()`. Without any doctor id nothing is sent. Otherwise the form
        goes out with the chosen doctor id, never an empty one; a 2xx answer shows the
        success banner, resets the form and asks for a reload (`reload`); a non-2xx answer
        or a rejection sets the error. */
    method HandleAddAvailability(storage: Storage.LocalStorage, reply: Reply<JsObject>)
      returns (request: Option<SlotForm>, reload: bool)
      modifies this
      ensures var chosen := ChooseDoctorId(old(formData).doctorId, storage.GetItem("user_id"));
        request == (if chosen.Some? then Some(old(formData).(doctorId := chosen.value)) else None)
      ensures request.Some? ==> request.value.doctorId != ""
      ensures reload <==> request.Some? && reply.Ok?
      ensures availabilities == old(availabilities) && isLoading == old(isLoading)
      ensures request.None? ==>
        error == Some("Doctor ID is required. Please ensure you are logged in properly.") &&
        formData == old(formData) && successMessage == old(successMessage)
      ensures reload ==>
        successMessage == Some("Availability slot created successfully!") && formData == EmptyForm() && error == old(error)
      ensures request.Some? && reply.NotOk? ==>
        error == Some("Failed to create availability slot") && formData == old(formData) && successMessage == old(successMessage)
      ensures request.Some? && reply.Thrown? ==>
        error == Some(reply.message) && formData == old(formData) && successMessage == old(successMessage)
    {
      reload := false;
      var chosen := ChooseDoctorId(formData.doctorId, storage.GetItem("user_id"));
      if chosen.None? {
        error := Some("Doctor ID is required. Please ensure you are logged in properly.");
        return None, false;
      }
      request := Some(formData.(doctorId := chosen.value));
      match reply {
        case Ok(_) =>
          successMessage := Some("Availability slot created successfully!");
          formData := EmptyForm();
          reload := true;
        case NotOk(_) =>
          error := Some("Failed to create availability slot");
        case Thrown(m) =>
          error := Some(m);
      }
    }

    /** `handleToggleAvailability(id, currentStatus)`: `PUT /availability/<id>/toggle`;
        a 2xx answer shows which way the slot went and asks for a reload. */
    method HandleToggleAvailability(id: string, currentStatus: bool, reply: Reply<JsObject>)
      returns (endpoint: string, reload: bool)
      modifies this
      ensures endpoint == ApiBaseUrl + "/availability/" + id + "/toggle"
      ensures reload <==> reply.Ok?
      ensures availabilities == old(availabilities) && isLoading == old(isLoading) && formData == old(formData)
      ensures reply.Ok? ==> successMessage == Some(ToggleMessage(currentStatus)) && error == old(error)
      ensures reply.NotOk? ==> error == Some("Failed to update availability status") && successMessage == old(successMessage)
      ensures reply.Thrown? ==> error == Some(reply.message) && successMessage == old(successMessage)
    {
      endpoint := ApiBaseUrl + "/availability/" + id + "/toggle";
      reload := reply.Ok?;
      match reply {
        case Ok(_) =>
          successMessage := Some(ToggleMessage(currentStatus));
        case NotOk(_) =>
          error := Some("Failed to update availability status");
        case Thrown(m) =>
          error := Some(m);
      }
    }
  }
}
