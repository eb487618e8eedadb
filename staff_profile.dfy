/** The staff profile page (HospitalStaffProfile.tsx): loading the profile from the backend
    or, failing that, from localStorage; editing and saving it; signing out. */
module StaffProfile {
  import opened Wrappers
  import opened Text
  import opened JsObjects
  import opened Http
  import Json
  import Storage
  import Session
  import CompleteProfile

  /** The eight displayed fields, in the order the page declares them. */
  datatype Profile = Profile(
    name: string, email: string, phone: string, department: string,
    licenseNumber: string, address: string, staffPosition: string, hospitalEmail: string)

  /** The inputs of the edit form. */
  datatype ProfileField = Name | Email | Phone | Department | LicenseNumber | Address | StaffPosition | HospitalEmail

  function EmptyProfile(): Profile
  {
    Profile("", "", "", "", "", "", "", "")
  }

  /** `{ ...editData, [key]: value }` for one of the eight inputs. */
  function WithField(p: Profile, f: ProfileField, value: string): Profile
  {
    match f
    case Name => p.(name := value)
    case Email => p.(email := value)
    case Phone => p.(phone := value)
    case Department => p.(department := value)
    case LicenseNumber => p.(licenseNumber := value)
    case Address => p.(address := value)
    case StaffPosition => p.(staffPosition := value)
    case HospitalEmail => p.(hospitalEmail := value)
  }

  function FieldValue(p: Profile, f: ProfileField): string
  {
    match f
    case Name => p.name
    case Email => p.email
    case Phone => p.phone
    case Department => p.department
    case LicenseNumber => p.licenseNumber
    case Address => p.address
    case StaffPosition => p.staffPosition
    case HospitalEmail => p.hospitalEmail
  }

  /** An edit sets its input and leaves the seven others. */
  lemma WithFieldSets(p: Profile, f: ProfileField, value: string, g: ProfileField)
    ensures FieldValue(WithField(p, f, value), f) == value
    ensures g != f ==> FieldValue(WithField(p, f, value), g) == FieldValue(p, g)
  {
  }

  /** The profile as the JavaScript object `JSON.stringify` writes. */
  function ProfileObject(p: Profile): (o: JsObject)
    ensures |o| == 8
  {
    [ Prop("name", p.name), Prop("email", p.email), Prop("phone", p.phone),
      Prop("department", p.department), Prop("licenseNumber", p.licenseNumber),
      Prop("address", p.address), Prop("staffPosition", p.staffPosition),
      Prop("hospitalEmail", p.hospitalEmail) ]
  }

  lemma ProfileObjectDistinct(p: Profile)
    ensures DistinctKeys(ProfileObject(p))
  {
    var o := ProfileObject(p);
    forall i, j | 0 <= i < j < |o|
      ensures o[i].key != o[j].key
    {
      assert o[i].key[0] != o[j].key[0];
    }
  }

  /** The profile read from a 2xx answer of `GET /auth/get-hospital-profile`; an absent or
      empty backend field reads as "". */
  function ProfileFromBackend(data: JsObject): (p: Profile)
    ensures p.name == (if Truthy(Get(data, "full_name")) then Get(data, "full_name").value else "")
    ensures p.email == (if Truthy(Get(data, "email")) then Get(data, "email").value else "")
    ensures p.phone == (if Truthy(Get(data, "hospital_phone")) then Get(data, "hospital_phone").value else "")
    ensures p.department == (if Truthy(Get(data, "department")) then Get(data, "department").value else "")
    ensures p.licenseNumber == (if Truthy(Get(data, "license_number")) then Get(data, "license_number").value else "")
    ensures p.address == (if Truthy(Get(data, "address")) then Get(data, "address").value else "")
    ensures p.staffPosition == (if Truthy(Get(data, "staff_position")) then Get(data, "staff_position").value else "")
    ensures p.hospitalEmail == (if Truthy(Get(data, "hospital_email")) then Get(data, "hospital_email").value else "")
  {
    Profile(
      Or(Get(data, "full_name"), ""), Or(Get(data, "email"), ""), Or(Get(data, "hospital_phone"), ""),
      Or(Get(data, "department"), ""), Or(Get(data, "license_number"), ""), Or(Get(data, "address"), ""),
      Or(Get(data, "staff_position"), ""), Or(Get(data, "hospital_email"), ""))
  }

  /** The body of `POST /auth/update-hospital-profile` sent by Save: the license number
      goes out twice, as the registration number and as the license number, and the phone
      as `hospital_phone`; name and email are not sent. */
  function SaveBody(p: Profile): (body: JsObject)
    ensures |body| == 7
  {
    [ Prop("registration_number", p.licenseNumber), Prop("department", p.department),
      Prop("license_number", p.licenseNumber), Prop("address", p.address),
      Prop("staff_position", p.staffPosition), Prop("hospital_phone", p.phone),
      Prop("hospital_email", p.hospitalEmail) ]
  }

  lemma SaveBodyDistinct(p: Profile)
    ensures DistinctKeys(SaveBody(p))
  {
    var o := SaveBody(p);
    forall i, j | 0 <= i < j < |o|
      ensures o[i].key != o[j].key
    {
      if i == 5 && j == 6 {
        assert o[i].key[9] != o[j].key[9];
      } else {
        assert o[i].key[0] != o[j].key[0];
      }
    }
  }

  /** Save sends the license number under both `registration_number` and `license_number`,
      the phone as `hospital_phone`, and every other edited field under its snake-case key. */
  lemma SaveBodySends(p: Profile)
    ensures Get(SaveBody(p), "registration_number") == Some(p.licenseNumber)
    ensures Get(SaveBody(p), "license_number") == Some(p.licenseNumber)
    ensures Get(SaveBody(p), "hospital_phone") == Some(p.phone)
    ensures Get(SaveBody(p), "department") == Some(p.department)
    ensures Get(SaveBody(p), "address") == Some(p.address)
    ensures Get(SaveBody(p), "staff_position") == Some(p.staffPosition)
    ensures Get(SaveBody(p), "hospital_email") == Some(p.hospitalEmail)
  {
    var b := SaveBody(p);
    SaveBodyDistinct(p);
    GetAt(b, 0); GetAt(b, 1); GetAt(b, 2); GetAt(b, 3); GetAt(b, 4); GetAt(b, 5); GetAt(b, 6);
  }

  /** Neither the name nor the email is sent. */
  lemma SaveBodyOmitsName(p: Profile)
    ensures Get(SaveBody(p), "full_name").None? && Get(SaveBody(p), "email").None?
  {
    var b := SaveBody(p);
    assert Keys(b) == [b[0].key, b[1].key, b[2].key, b[3].key, b[4].key, b[5].key, b[6].key];
    assert "full_name"[0] == 'f' && "email"[0] == 'e';
  }

  /** What the backend answers after storing a save, with the name and email it already
      had: the save body plus `full_name` and `email`. */
  function Echo(p: Profile): (o: JsObject)
    ensures o == SaveBody(p) + [Prop("full_name", p.name), Prop("email", p.email)]
  {
    [ Prop("registration_number", p.licenseNumber), Prop("department", p.department),
      Prop("license_number", p.licenseNumber), Prop("address", p.address),
      Prop("staff_position", p.staffPosition), Prop("hospital_phone", p.phone),
      Prop("hospital_email", p.hospitalEmail), Prop("full_name", p.name), Prop("email", p.email) ]
  }

  lemma EchoDistinct(p: Profile)
    ensures DistinctKeys(Echo(p))
  {
    var o := Echo(p);
    forall i, j | 0 <= i < j < |o|
      ensures o[i].key != o[j].key
    {
      if i == 5 && j == 6 {
        assert o[i].key[9] != o[j].key[9];
      } else {
        assert o[i].key[0] != o[j].key[0];
      }
    }
  }

  /** A saved profile, echoed by the backend, loads back unchanged. */
  lemma SaveThenLoad(p: Profile)
    ensures ProfileFromBackend(Echo(p)) == p
  {
    var o := Echo(p);
    EchoDistinct(p);
    GetAt(o, 1); GetAt(o, 2); GetAt(o, 3); GetAt(o, 4); GetAt(o, 5); GetAt(o, 6); GetAt(o, 7); GetAt(o, 8);
  }

  /** The fallback as written: every field by its own name, except the phone, read from
      `hospitalPhone`, the key the completion form stores. */
  function ProfileFromStoredAsWritten(parsed: JsObject): (p: Profile)
    ensures p.name == (if Truthy(Get(parsed, "name")) then Get(parsed, "name").value else "")
    ensures p.email == (if Truthy(Get(parsed, "email")) then Get(parsed, "email").value else "")
    ensures p.phone == (if Truthy(Get(parsed, "hospitalPhone")) then Get(parsed, "hospitalPhone").value else "")
    ensures p.department == (if Truthy(Get(parsed, "department")) then Get(parsed, "department").value else "")
    ensures p.licenseNumber == (if Truthy(Get(parsed, "licenseNumber")) then Get(parsed, "licenseNumber").value else "")
    ensures p.address == (if Truthy(Get(parsed, "address")) then Get(parsed, "address").value else "")
    ensures p.staffPosition == (if Truthy(Get(parsed, "staffPosition")) then Get(parsed, "staffPosition").value else "")
    ensures p.hospitalEmail == (if Truthy(Get(parsed, "hospitalEmail")) then Get(parsed, "hospitalEmail").value else "")
  {
    Profile(
      Or(Get(parsed, "name"), ""), Or(Get(parsed, "email"), ""), Or(Get(parsed, "hospitalPhone"), ""),
      Or(Get(parsed, "department"), ""), Or(Get(parsed, "licenseNumber"), ""), Or(Get(parsed, "address"), ""),
      Or(Get(parsed, "staffPosition"), ""), Or(Get(parsed, "hospitalEmail"), ""))
  }

  /** The fallback with the phone read from `hospitalPhone` or, for a profile stored by
      Save, from `phone`. */
  function ProfileFromStored(parsed: JsObject): (p: Profile)
    ensures Get(parsed, "phone").None? ==> p == ProfileFromStoredAsWritten(parsed)
  {
    Profile(
      Or(Get(parsed, "name"), ""), Or(Get(parsed, "email"), ""),
      Or(Get(parsed, "hospitalPhone"), Or(Get(parsed, "phone"), "")),
      Or(Get(parsed, "department"), ""), Or(Get(parsed, "licenseNumber"), ""), Or(Get(parsed, "address"), ""),
      Or(Get(parsed, "staffPosition"), ""), Or(Get(parsed, "hospitalEmail"), ""))
  }

  lemma HospitalPhoneAbsent(p: Profile)
    ensures Get(ProfileObject(p), "hospitalPhone").None?
  {
    var o := ProfileObject(p);
    assert Keys(o) == [o[0].key, o[1].key, o[2].key, o[3].key, o[4].key, o[5].key, o[6].key, o[7].key];
    assert "hospitalPhone"[0] == 'h' && "hospitalPhone"[8] == 'P';
  }

  /** As written, a profile stored by Save loses its phone when the fallback reads it back. */
  lemma FallbackLosesPhone(p: Profile)
    requires p.phone != ""
    ensures Json.Parse(Json.Stringify(ProfileObject(p))) == Some(ProfileObject(p))
    ensures ProfileFromStoredAsWritten(ProfileObject(p)).phone == ""
    ensures ProfileFromStoredAsWritten(ProfileObject(p)) != p
  {
    ProfileObjectDistinct(p);
    Json.ParseStringify(ProfileObject(p));
    HospitalPhoneAbsent(p);
  }

  /** With the phone also read from `phone`, the fallback returns exactly the profile
      Save stored. */
  lemma FallbackRestoresSaved(p: Profile)
    ensures Json.Parse(Json.Stringify(ProfileObject(p))) == Some(ProfileObject(p))
    ensures ProfileFromStored(ProfileObject(p)) == p
  {
    var o := ProfileObject(p);
    ProfileObjectDistinct(p);
    Json.ParseStringify(o);
    HospitalPhoneAbsent(p);
    GetAt(o, 0);
    GetAt(o, 1);
    GetAt(o, 2);
    GetAt(o, 3);
    GetAt(o, 4);
    GetAt(o, 5);
    GetAt(o, 6);
    GetAt(o, 7);
  }

  /** The error banner's texts. */
  const MissingTokenError := "No authentication token found"
  const FetchError := "Failed to fetch profile data"
  const UpdateError := "Failed to update profile"
  const UpdateConnectionError := "Connection error while updating profile"

  /** The profile kept by the page. */
  class StaffProfilePage {
    var loading: bool
    var error: string
    var isEditing: bool
    var staffData: Profile
    var editData: Profile

    constructor ()
      ensures loading && error == "" && !isEditing
      ensures staffData == EmptyProfile() && editData == EmptyProfile()
    {
      loading, error, isEditing := true, "", false;
      staffData, editData := EmptyProfile(), EmptyProfile();
    }

    /** The mount effect. Without a token: an error. A 2xx answer fills both the shown and
        the edited profile from the backend. A non-2xx answer falls back to the profile
        stored in localStorage, when there is one; stored text that is not a JSON object
        fails like a rejection, with "Failed to fetch profile data". Loading ends in
        every case. */
    method LoadProfile(storage: Storage.LocalStorage, reply: Reply<JsObject>)
      modifies this
      ensures !loading && isEditing == old(isEditing)
      ensures !Truthy(storage.GetItem("auth_token")) ==>
        error == MissingTokenError && staffData == old(staffData) && editData == old(editData)
      ensures Truthy(storage.GetItem("auth_token")) && reply.Ok? ==>
        staffData == ProfileFromBackend(reply.body) && editData == staffData && error == old(error)
      ensures Truthy(storage.GetItem("auth_token")) && reply.Thrown? ==>
        error == FetchError && staffData == old(staffData) && editData == old(editData)
      ensures Truthy(storage.GetItem("auth_token")) && reply.NotOk? ==>
        var stored := storage.GetItem("hospitalProfileData");
        if !Truthy(stored) then
          error == old(error) && staffData == old(staffData) && editData == old(editData)
        else if Json.Parse(stored.value).None? then
          error == FetchError && staffData == old(staffData) && editData == old(editData)
        else
          error == old(error) && staffData == ProfileFromStored(Json.Parse(stored.value).value) && editData == staffData
    {
      var token := storage.GetItem("auth_token");
      if !Truthy(token) {
        error := MissingTokenError;
        loading := false;
        return;
      }
      match reply {
        case Ok(data) =>
          staffData := ProfileFromBackend(data);
          editData := staffData;
        case Thrown(_) =>
          error := FetchError;
        case NotOk(_) =>
          var stored := storage.GetItem("hospitalProfileData");
          if Truthy(stored) {
            var parsed := Json.Parse(stored.value);
            if parsed.None? {
              error := FetchError;
            } else {
              staffData := ProfileFromStored(parsed.value);
              editData := staffData;
            }
          }
      }
      loading := false;
    }

    /** The Edit button: editing starts from whatever the edit form last held. */
    method StartEditing()
      modifies this
      ensures isEditing
      ensures staffData == old(staffData) && editData == old(editData) && error == old(error) && loading == old(loading)
    {
      isEditing := true;
    }

    method EditField(f: ProfileField, value: string)
      modifies this
      ensures editData == WithField(old(editData), f, value)
      ensures staffData == old(staffData) && isEditing == old(isEditing) && error == old(error) && loading == old(loading)
    {
      editData := WithField(editData, f, value);
    }

    /** `handleEditSave()`. Without a token: an error and nothing sent. A 2xx answer shows
        the edited profile, ends editing and stores it as JSON (which the fallback reads
        back, see `FallbackRestoresSaved`); a non-2xx answer or a rejection only sets the
        error. */
    method HandleEditSave(storage: Storage.LocalStorage, reply: Reply<JsObject>) returns (request: Option<JsObject>)
      modifies this, storage
      ensures editData == old(editData) && loading == old(loading)
      ensures request.Some? <==> Truthy(old(storage.GetItem("auth_token")))
      ensures request.None? ==>
        error == MissingTokenError && staffData == old(staffData) &&
        isEditing == old(isEditing) && storage.items == old(storage.items)
      ensures request.Some? ==> request.value == SaveBody(editData)
      ensures request.Some? && reply.Ok? ==>
        staffData == editData && !isEditing && error == old(error) &&
        storage.items == old(storage.items)["hospitalProfileData" := Json.Stringify(ProfileObject(editData))]
      ensures request.Some? && !reply.Ok? ==>
        error == (if reply.NotOk? then UpdateError else UpdateConnectionError) &&
        staffData == old(staffData) && isEditing == old(isEditing) && storage.items == old(storage.items)
    {
      var token := storage.GetItem("auth_token");
      if !Truthy(token) {
        error := MissingTokenError;
        return None;
      }
      request := Some(SaveBody(editData));
      match reply {
        case Ok(_) =>
          staffData := editData;
          isEditing := false;
          storage.SetItem("hospitalProfileData", Json.Stringify(ProfileObject(editData)));
        case NotOk(_) =>
          error := UpdateError;
        case Thrown(_) =>
          error := UpdateConnectionError;
      }
    }

    /** `handleSignOut()`: the five session entries go and the window leaves for the
        authentication app, which a reload would also do. */
    method HandleSignOut(storage: Storage.LocalStorage) returns (url: string)
      modifies storage
      ensures url == Session.AuthAppUrl
      ensures storage.items == old(storage.items) - {"auth_token", "user_role", "user_id", "profile_complete", "hospitalProfileData"}
      ensures Session.StoredDecision(storage.items).Redirect?
    {
      storage.RemoveItem("auth_token");
      storage.RemoveItem("user_role");
      storage.RemoveItem("user_id");
      storage.RemoveItem("profile_complete");
      storage.RemoveItem("hospitalProfileData");
      assert Session.Lookup(storage.items, "auth_token").None?;
      url := Session.AuthAppUrl;
    }
  }

  /** The fallback also reads what the completion form stored: its phone, department,
      license number, address, position and hospital email, with no name and no email. */
  lemma FallbackReadsCompletionForm(form: CompleteProfile.ProfileForm)
    ensures ProfileFromStored(CompleteProfile.FormObject(form)) ==
      Profile("", "", form.hospitalPhone, form.department, form.licenseNumber, form.address,
              form.staffPosition, form.hospitalEmail)
  {
    CompleteProfile.FormObjectLookups(form);
    CompleteProfile.FormObjectOmitsStaffKeys(form);
  }
}
