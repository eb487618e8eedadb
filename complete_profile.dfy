/** The profile completion form (HospitalCompleteProfile.tsx): its seven fields, the
    request it sends, skipping it, and what it leaves in localStorage. */
module CompleteProfile {
  import opened Wrappers
  import opened Text
  import opened JsObjects
  import opened Http
  import Json
  import Storage
  import Session
  import opened Notifications

  /** The form's state: its seven inputs. */
  datatype ProfileForm = ProfileForm(
    registrationNumber: string, department: string, licenseNumber: string, address: string,
    staffPosition: string, hospitalPhone: string, hospitalEmail: string)

  /** The `name` attribute of each input. */
  datatype FormField =
    | RegistrationNumber | Department | LicenseNumber | Address | StaffPosition | HospitalPhone | HospitalEmail

  function EmptyForm(): ProfileForm
  {
    ProfileForm("", "", "", "", "", "", "")
  }

  /** `{ ...formData, [name]: value }` for one of the seven inputs. */
  function WithField(form: ProfileForm, f: FormField, value: string): ProfileForm
  {
    match f
    case RegistrationNumber => form.(registrationNumber := value)
    case Department => form.(department := value)
    case LicenseNumber => form.(licenseNumber := value)
    case Address => form.(address := value)
    case StaffPosition => form.(staffPosition := value)
    case HospitalPhone => form.(hospitalPhone := value)
    case HospitalEmail => form.(hospitalEmail := value)
  }

  /** The value of one input. */
  function FieldValue(form: ProfileForm, f: FormField): string
  {
    match f
    case RegistrationNumber => form.registrationNumber
    case Department => form.department
    case LicenseNumber => form.licenseNumber
    case Address => form.address
    case StaffPosition => form.staffPosition
    case HospitalPhone => form.hospitalPhone
    case HospitalEmail => form.hospitalEmail
  }

  /** An edit sets its input and leaves the six others; a second edit of the same input
      overrides the first. */
  lemma WithFieldSets(form: ProfileForm, f: FormField, value: string, g: FormField, w: string)
    ensures FieldValue(WithField(form, f, value), f) == value
    ensures g != f ==> FieldValue(WithField(form, f, value), g) == FieldValue(form, g)
    ensures WithField(WithField(form, f, value), f, w) == WithField(form, f, w)
    ensures WithField(form, f, FieldValue(form, f)) == form
  {
  }

  /** The form as the JavaScript object `JSON.stringify` writes: its keys in declaration order. */
  function FormObject(form: ProfileForm): (o: JsObject)
    ensures |o| == 7
  {
    [ Prop("registrationNumber", form.registrationNumber), Prop("department", form.department),
      Prop("licenseNumber", form.licenseNumber), Prop("address", form.address),
      Prop("staffPosition", form.staffPosition), Prop("hospitalPhone", form.hospitalPhone),
      Prop("hospitalEmail", form.hospitalEmail) ]
  }

  lemma FormObjectDistinct(form: ProfileForm)
    ensures DistinctKeys(FormObject(form))
  {
    var o := FormObject(form);
    forall i, j | 0 <= i < j < |o|
      ensures o[i].key != o[j].key
    {
      if i == 5 && j == 6 {
        assert o[i].key[8] != o[j].key[8];
      } else {
        assert o[i].key[0] != o[j].key[0];
      }
    }
  }

  /** Each input is stored under its own name. */
  lemma FormObjectLookups(form: ProfileForm)
    ensures Get(FormObject(form), "registrationNumber") == Some(form.registrationNumber)
    ensures Get(FormObject(form), "department") == Some(form.department)
    ensures Get(FormObject(form), "licenseNumber") == Some(form.licenseNumber)
    ensures Get(FormObject(form), "address") == Some(form.address)
    ensures Get(FormObject(form), "staffPosition") == Some(form.staffPosition)
    ensures Get(FormObject(form), "hospitalPhone") == Some(form.hospitalPhone)
    ensures Get(FormObject(form), "hospitalEmail") == Some(form.hospitalEmail)
  {
    var o := FormObject(form);
    FormObjectDistinct(form);
    GetAt(o, 0); GetAt(o, 1); GetAt(o, 2); GetAt(o, 3); GetAt(o, 4); GetAt(o, 5); GetAt(o, 6);
  }

  /** The stored form has no `name`, `email` or `phone` property. */
  lemma FormObjectOmitsStaffKeys(form: ProfileForm)
    ensures Get(FormObject(form), "name").None?
    ensures Get(FormObject(form), "email").None?
    ensures Get(FormObject(form), "phone").None?
  {
    var o := FormObject(form);
    assert Keys(o) == [o[0].key, o[1].key, o[2].key, o[3].key, o[4].key, o[5].key, o[6].key];
    assert "name"[0] == 'n' && "email"[0] == 'e' && "phone"[0] == 'p';
  }

  /** What a completed form leaves in localStorage parses back to the form. */
  lemma StoredFormParses(form: ProfileForm)
    ensures Json.Parse(Json.Stringify(FormObject(form))) == Some(FormObject(form))
  {
    FormObjectDistinct(form);
    Json.ParseStringify(FormObject(form));
  }

  /** The body of `POST /auth/update-hospital-profile`: the same seven values, in the same
      order, under their snake-case keys. */
  function RequestBody(form: ProfileForm): (body: JsObject)
    ensures |body| == |FormObject(form)|
    ensures forall i :: 0 <= i < |body| ==> body[i].value == FormObject(form)[i].value
  {
    [ Prop("registration_number", form.registrationNumber), Prop("department", form.department),
      Prop("license_number", form.licenseNumber), Prop("address", form.address),
      Prop("staff_position", form.staffPosition), Prop("hospital_phone", form.hospitalPhone),
      Prop("hospital_email", form.hospitalEmail) ]
  }

  lemma RequestBodyDistinct(form: ProfileForm)
    ensures DistinctKeys(RequestBody(form))
  {
    var o := RequestBody(form);
    forall i, j | 0 <= i < j < |o|
      ensures o[i].key != o[j].key
    {
      if i == 5 && j == 6 {
        assert o[i].key[9] != o[j].key[9];
      } else {
        assert o[i].key[0] != o[j].key[0];
      }
    }
  }

  /** Each input goes out under the snake-case form of its name. */
  lemma RequestBodySends(form: ProfileForm)
    ensures Get(RequestBody(form), "registration_number") == Some(form.registrationNumber)
    ensures Get(RequestBody(form), "department") == Some(form.department)
    ensures Get(RequestBody(form), "license_number") == Some(form.licenseNumber)
    ensures Get(RequestBody(form), "address") == Some(form.address)
    ensures Get(RequestBody(form), "staff_position") == Some(form.staffPosition)
    ensures Get(RequestBody(form), "hospital_phone") == Some(form.hospitalPhone)
    ensures Get(RequestBody(form), "hospital_email") == Some(form.hospitalEmail)
  {
    var b := RequestBody(form);
    RequestBodyDistinct(form);
    GetAt(b, 0); GetAt(b, 1); GetAt(b, 2); GetAt(b, 3); GetAt(b, 4); GetAt(b, 5); GetAt(b, 6);
  }

  /** The error shown for a non-2xx answer: the backend's `error`, else its `message`,
      else a fixed text; never empty. */
  function ErrorMessage(body: JsObject): (m: string)
    ensures m != ""
    ensures Truthy(Get(body, "error")) ==> m == Get(body, "error").value
    ensures !Truthy(Get(body, "error")) && Truthy(Get(body, "message")) ==> m == Get(body, "message").value
    ensures !Truthy(Get(body, "error")) && !Truthy(Get(body, "message")) ==> m == "Failed to update profile"
  {
    Or(Get(body, "error"), Or(Get(body, "message"), "Failed to update profile"))
  }

  /** The notification added by "Skip for Now". */
  function SkipDraft(): (d: Draft)
    ensures d.kind == "warning" && d.title == "Complete Your Profile" && d.appointmentId.None?
  {
    Draft("Complete Your Profile",
      "You have skipped filling your hospital profile. Please complete it later for better management.",
      "warning", None)
  }

  /** Once the session is accepted, marking the profile complete (by Skip, or by a
      completed form with its stored copy) makes every later start show the dashboard. */
  lemma CompletedThenReload(items: map<string, string>, stored: string)
    requires Session.StoredDecision(items).Show?
    ensures Session.StoredDecision(items["profile_complete" := "true"]) == Session.Show("dashboard")
    ensures Session.StoredDecision(items["profile_complete" := "true"]["hospitalProfileData" := stored]) == Session.Show("dashboard")
  {
    var skipped := items["profile_complete" := "true"];
    var completed := skipped["hospitalProfileData" := stored];
    assert Session.Lookup(skipped, "auth_token") == Session.Lookup(items, "auth_token");
    assert Session.Lookup(skipped, "user_role") == Session.Lookup(items, "user_role");
    assert Session.Lookup(completed, "auth_token") == Session.Lookup(items, "auth_token");
    assert Session.Lookup(completed, "user_role") == Session.Lookup(items, "user_role");
    assert Session.Lookup(completed, "profile_complete") == Some("true");
  }

  const ConnectionError: string := "Connection error. Please ensure the backend server is running on localhost:5000."

  /** The form's state. */
  class CompleteProfilePage {
    var formData: ProfileForm
    var loading: bool
    var error: string
    var backendAvailable: bool

    constructor ()
      ensures formData == EmptyForm() && !loading && error == "" && backendAvailable
    {
      formData, loading, error, backendAvailable := EmptyForm(), false, "", true;
    }

    /** The health check at mount: the backend counts as available exactly when it answers
        with a 2xx status. */
    method CheckBackendHealth(reply: Reply<JsObject>)
      modifies this
      ensures backendAvailable <==> reply.Ok?
      ensures formData == old(formData) && loading == old(loading) && error == old(error)
    {
      backendAvailable := reply.Ok?;
    }

    /** `handleChange`: the input `f` takes `value`; nothing else moves. */
    method HandleChange(f: FormField, value: string)
      modifies this
      ensures formData == WithField(old(formData), f, value)
      ensures FieldValue(formData, f) == value
      ensures forall g :: g != f ==> FieldValue(formData, g) == FieldValue(old(formData), g)
      ensures loading == old(loading) && error == old(error) && backendAvailable == old(backendAvailable)
    {
      formData := WithField(formData, f, value);
    }

    /** The Skip button is disabled while a save is in flight. */
    predicate SkipDisabled()
      reads this
    {
      loading
    }

    /** The Complete button is disabled while saving and when the health check failed. */
    predicate CompleteDisabled()
      reads this
    {
      loading || !backendAvailable
    }

    /** Whenever Skip is disabled so is Complete; Complete is enabled exactly when nothing
        is in flight and the health check succeeded; with the backend down, Skip stays the
        one way forward. */
    lemma ButtonGuards()
      ensures SkipDisabled() ==> CompleteDisabled()
      ensures !CompleteDisabled() <==> !loading && backendAvailable
      ensures !loading && !backendAvailable ==> !SkipDisabled() && CompleteDisabled()
    {
    }

    /** `handleSkip()`: a warning notification, the profile marked complete, and the
        dashboard; the id and time of the notification come from the clock. */
    method HandleSkip(storage: Storage.LocalStorage, store: NotificationStore, noteId: string, now: string)
      returns (next: string)
      modifies storage, store
      ensures next == "dashboard"
      ensures storage.items == old(storage.items)["profile_complete" := "true"]
      ensures store.notifications == Added(old(store.notifications), SkipDraft(), noteId, now)
    {
      store.AddNotification(SkipDraft(), noteId, now);
      storage.SetItem("profile_complete", "true");
      next := "dashboard";
    }

    /** `handleComplete()`. Without a token nothing is sent. Otherwise the request body is
        sent; a non-2xx answer shows the backend's message, a rejection the connection
        error, and both end loading. A 2xx answer marks the profile complete, stores the
        form as JSON (see `StoredFormParses`) and goes to the dashboard with
        loading still on. */
    method HandleComplete(storage: Storage.LocalStorage, reply: Reply<JsObject>)
      returns (request: Option<JsObject>, next: Option<string>)
      modifies this, storage
      ensures formData == old(formData) && backendAvailable == old(backendAvailable)
      ensures request.Some? <==> Truthy(old(storage.GetItem("auth_token")))
      ensures request.Some? ==> request.value == RequestBody(formData)
      ensures next.Some? <==> request.Some? && reply.Ok?
      ensures request.None? ==>
        error == Http.NoTokenError && !loading &&
        storage.items == old(storage.items)
      ensures request.Some? && reply.NotOk? ==>
        error == ErrorMessage(reply.errorBody) && !loading && storage.items == old(storage.items)
      ensures request.Some? && reply.Thrown? ==>
        error == ConnectionError && !loading && storage.items == old(storage.items)
      ensures next.Some? ==>
        next.value == "dashboard" && error == "" && loading &&
        storage.items == old(storage.items)["profile_complete" := "true"]["hospitalProfileData" := Json.Stringify(FormObject(formData))]
    {
      error := "";
      loading := true;
      next := None;
      var token := storage.GetItem("auth_token");
      if !Truthy(token) {
        error := Http.NoTokenError;
        loading := false;
        return None, None;
      }
      request := Some(RequestBody(formData));
      match reply {
        case NotOk(body) =>
          error := ErrorMessage(body);
          loading := false;
        case Thrown(_) =>
          error := ConnectionError;
          loading := false;
        case Ok(_) =>
          storage.SetItem("profile_complete", "true");
          storage.SetItem("hospitalProfileData", Json.Stringify(FormObject(formData)));
          next := Some("dashboard");
      }
    }
  }
}
