# PulseSync hospital module — a verified model of the front-end's logic

PulseSync's hospital module is a React front-end for hospital staff. It covers:

- a notification centre;
- appointment management, with confirm and cancel transitions;
- a dashboard with an availability manager;
- the session start in `App.tsx`, which decides between the dashboard, the
  profile-completion form and a redirect to the authentication app;
- the profile-completion form and the staff profile;
- doctor availability slots;
- three searchable directories: doctors, patients and diagnostic tests.

This project restates that logic in Dafny and proves what each piece promises.

Every network request is reduced to its outcome, `Http.Reply`: a 2xx answer with its parsed
body, another status with its parsed body, or a rejection with its message.
`localStorage` is one `Storage.LocalStorage` object over a `map<string, string>`. The
pages whose React state changes step by step are classes:

- `NotificationStore`, `AppointmentPage` and `DashboardPage`;
- `App`, `CompleteProfilePage` and `StaffProfilePage`;
- `AvailabilityPage`.

Their handlers are methods whose postconditions give the new state in full. The pure parts are
functions, with lemmas relating them: filters, snapshots, request bodies, labels and the
session decision. `clearNotifications` keeps its loop. JavaScript's `||` on strings and
`null` is `Text.Or`. The spread update `{ ...o, [k]: v }` is `JsObjects.Set`. For the flat
string objects the pages store, `JSON.stringify`/`JSON.parse` are `Json.Stringify`/`Json.Parse`,
with the round trip proved.

Modules follow the source files:

| module | file |
|---|---|
| `Notifications` | `context/NotificationContext.tsx` |
| `Appointments` | `pages/AppointmentManagement.tsx` |
| `Dashboard` | `pages/Dashboard.tsx` |
| `Session` | `App.tsx` |
| `CompleteProfile` | `pages/HospitalCompleteProfile.tsx` |
| `StaffProfile` | `pages/HospitalStaffProfile.tsx` |
| `Availability` | `pages/AvailabilitySlots.tsx` |
| `DoctorManagement` | `pages/DoctorManagement.tsx` |
| `PatientRecords` | `pages/PatientRecords.tsx` |
| `Diagnostics` | `pages/DiagnosticsManagement.tsx` |

They share `Wrappers`, `Text`, `Seqs`, `JsObjects`, `Json`, `Http` and `Storage`.

Where the written description of the system and the code disagree, the model follows the code:
- The code keeps no "one notification per appointment" rule. `processedAppointmentIds` is
  never used, and a fetch replaces the list with the backend's list.
- Cancel is offered on every displayed appointment, completed ones included.
- `clearNotification` removes entries by notification id, not by appointment id.

## Model

| member | source | states |
|---|---|---|
| Notifications.Added | frontend/src/context/NotificationContext.tsx:41-49 | the new entry is first, unread, with the given id, time and draft fields; the old list follows unchanged, one longer |
| Notifications.AddedUnread | frontend/src/context/NotificationContext.tsx:41-49 | adding an entry raises the unread count by exactly one |
| Notifications.MarkedRead | frontend/src/context/NotificationContext.tsx:51-53 | same length and order; each entry differs from the old one at most in `read`, which holds iff it held before or the entry carries the id |
| Notifications.MarkedReadAbsent | frontend/src/context/NotificationContext.tsx:51-53 | marking an id no entry carries changes nothing |
| Notifications.MarkedReadIdempotent | frontend/src/context/NotificationContext.tsx:51-53 | marking the same id twice equals marking it once |
| Notifications.MarkedReadUnread | frontend/src/context/NotificationContext.tsx:51-53 | the unread count never grows, and every entry with the id ends read |
| Notifications.AllRead | frontend/src/context/NotificationContext.tsx:55-57 | same length and order, each entry the old one with `read` set |
| Notifications.AllReadNoUnread | frontend/src/context/NotificationContext.tsx:55-57 | after marking all read the unread count is 0 |
| Notifications.WithoutId | frontend/src/context/NotificationContext.tsx:74 | keeps exactly the entries whose id differs, as an order-preserving subsequence |
| Notifications.WithoutIdIdempotent | frontend/src/context/NotificationContext.tsx:74 | removing an id twice equals removing it once |
| Notifications.WithoutAbsentId | frontend/src/context/NotificationContext.tsx:74 | removing an id no entry carries changes nothing |
| Notifications.CountUnread | frontend/src/context/NotificationContext.tsx:146 | never exceeds the list length; 0 iff every entry is read |
| Notifications.CountUnreadIsFilterLength | frontend/src/context/NotificationContext.tsx:146 | the count equals the length of the `!read` filter |
| Notifications.Mapped | frontend/src/context/NotificationContext.tsx:125-133 | same length as the backend list, mapped element by element |
| Notifications.TitleFor | frontend/src/context/NotificationContext.tsx:127 | "Appointment Confirmed" iff the type is success, "Appointment Cancelled" iff warning, else "New Appointment" |
| Notifications.FromBackend | frontend/src/context/NotificationContext.tsx:125-133 | id, appointment id, read flag, message, type and creation time are copied; the title is the type's |
| Notifications.MappedFaithful | frontend/src/context/NotificationContext.tsx:125-133 | id, appointment id, read flag, message, type and creation time are copied; the title is "Appointment Confirmed" for success, "Appointment Cancelled" for warning, "New Appointment" otherwise |
| Notifications.MappedUnread | frontend/src/context/NotificationContext.tsx:125-133 | the unread count of the mapped list is the number of unread backend entries |
| Notifications.FirstThrow | frontend/src/context/NotificationContext.tsx:87-95 | the index of the first request that rejects: none before it rejects, and it rejects unless it is past the end |
| Notifications.NotificationStore.constructor | frontend/src/context/NotificationContext.tsx:38 | the list starts empty |
| Notifications.NotificationStore.UnreadCount | frontend/src/context/NotificationContext.tsx:146 | the number of unread entries, never more than the list length |
| Notifications.NotificationStore.AddNotification | frontend/src/context/NotificationContext.tsx:41-49 | the list becomes `Added` of the old list |
| Notifications.NotificationStore.MarkAsRead | frontend/src/context/NotificationContext.tsx:51-53 | the list becomes `MarkedRead` of the old list |
| Notifications.NotificationStore.MarkAllAsRead | frontend/src/context/NotificationContext.tsx:55-57 | the list becomes `AllRead` of the old list and the unread count is 0 |
| Notifications.NotificationStore.ClearNotification | frontend/src/context/NotificationContext.tsx:59-79 | no token: nothing sent, list unchanged; sent and 2xx: the entries with that id are removed; otherwise unchanged |
| Notifications.NotificationStore.ClearNotifications | frontend/src/context/NotificationContext.tsx:81-101 | no token: nothing sent, list unchanged; otherwise one request per entry in list order up to and including the first rejection, and the list is emptied exactly when none rejects |
| Notifications.NotificationStore.FetchAppointmentNotifications | frontend/src/context/NotificationContext.tsx:103-140 | sent iff there is a token; a 2xx answer replaces the list by the mapped backend list (absent field: empty), anything else leaves it |
| Appointments.PatientSnapshot | frontend/src/pages/AppointmentManagement.tsx:57-85 | a snapshot iff the request succeeded; it carries the backend `id`; the name is `full_name` when truthy, else "Unknown Patient"; email, phone and blood type are the backend's value when truthy, else "N/A"; so no shown field is empty |
| Appointments.DoctorSnapshot | frontend/src/pages/AppointmentManagement.tsx:87-114 | a snapshot iff the request succeeded; it carries the backend `id`; the name is `full_name` when truthy, else "Unknown Doctor"; the specialty is `department` when truthy, else "General Practice"; the email is `email` when truthy, else "N/A"; none is empty |
| Appointments.Enriched | frontend/src/pages/AppointmentManagement.tsx:144-154 | same length; each appointment gets the snapshots of its own patient and doctor and nothing else changes |
| Appointments.LoadedOrder | frontend/src/pages/AppointmentManagement.tsx:142 | the loaded list is today's, then upcoming, then past appointments, each group in backend order |
| Appointments.Filtered | frontend/src/pages/AppointmentManagement.tsx:174-176 | exactly the appointments of the selected day that are not cancelled, as an order-preserving subsequence |
| Appointments.DisplayedActions | frontend/src/pages/AppointmentManagement.tsx:378-383 | every displayed card offers Cancel; Confirm is offered (card and dialog) iff the appointment is pending |
| Appointments.TodayMessage | frontend/src/pages/AppointmentManagement.tsx:162 | "appointment" is plural unless the count is exactly 1 |
| Appointments.TodaySummary | frontend/src/pages/AppointmentManagement.tsx:159-165 | an info notification "Today's Appointments" exists iff today's list is non-empty, without appointment id, with the count message |
| Appointments.Find | frontend/src/pages/AppointmentManagement.tsx:212 | the first appointment in list order with that id; none iff no appointment has it |
| Appointments.TransitionDraft | frontend/src/pages/AppointmentManagement.tsx:214-219 | kind "success" for confirmed and "warning" otherwise; carries the appointment id; title "Appointment <status>" |
| Appointments.StatusRequest | frontend/src/pages/AppointmentManagement.tsx:180-203 | no request iff cancelling with a falsy reason; always POST with the bearer header; `/confirm` with an empty body, `/cancel` with the reason, other statuses the bare endpoint |
| Appointments.AppointmentPage.constructor | frontend/src/pages/AppointmentManagement.tsx:43-47 | empty lists, no banners, loading |
| Appointments.AppointmentPage.FetchAppointments | frontend/src/pages/AppointmentManagement.tsx:116-172 | sent iff either token is truthy; the missing-token, non-2xx and rejection errors; on 2xx the enriched flattened list, today's list and the summary notification iff today is non-empty; loading ends |
| Appointments.AppointmentPage.UpdateAppointmentStatus | frontend/src/pages/AppointmentManagement.tsx:178-229 | the request is `StatusRequest`; no request changes nothing; a failure sets only the error; success sets the banner, adds the transition notification iff the id is loaded, and asks for a reload |
| Dashboard.InitialSlots | frontend/src/pages/Dashboard.tsx:38-47 | eight slots with ids "1" to "8", all available, with distinct times |
| Dashboard.Toggled | frontend/src/pages/Dashboard.tsx:86-88 | ids and times kept; a slot's availability flips iff its id is the one toggled |
| Dashboard.ToggledTwice | frontend/src/pages/Dashboard.tsx:86-88 | toggling the same id twice restores the slots |
| Dashboard.WithAll | frontend/src/pages/Dashboard.tsx:128-130 | every slot takes the given availability; ids, times and order kept |
| Dashboard.Times | frontend/src/pages/Dashboard.tsx:95 | every slot's time, position by position |
| Dashboard.AvailableTimes | frontend/src/pages/Dashboard.tsx:95 | the times of the slots `filter(s => s.available)` keeps, mapped to `.time` in list order; so exactly the available times, as an order-preserving subsequence of all the slots' times |
| Dashboard.AvailableCount | frontend/src/pages/Dashboard.tsx:310 | the summary count never exceeds the number of slots |
| Dashboard.AvailableTimesCounted | frontend/src/pages/Dashboard.tsx:95 | the number of times sent equals the summary count |
| Dashboard.WithAllCounts | frontend/src/pages/Dashboard.tsx:128-130 | after setting all, the count is all the slots or none |
| Dashboard.SaveGuard | frontend/src/pages/Dashboard.tsx:276 | Save is disabled while saving; with status available it is disabled iff saving; with status busy and nothing in flight it is enabled iff both ends of the window are filled, so an enabled Save never sends a busy status with an empty window |
| Dashboard.Recent | frontend/src/pages/Dashboard.tsx:76-77 | a prefix of today's list of length min(4, its length) |
| Dashboard.DashboardPage.constructor | frontend/src/pages/Dashboard.tsx:29-49 | the initial state, with `InitialSlots` |
| Dashboard.DashboardPage.FetchDashboardData | frontend/src/pages/Dashboard.tsx:58-84 | sent iff either token is truthy; on 2xx the recent list is `Recent` of today's, or empty when the answer has no `today` list; nothing else changes |
| Dashboard.DashboardPage.ChooseStatus | frontend/src/pages/Dashboard.tsx:157-168 | sets the status only |
| Dashboard.DashboardPage.SetWindow | frontend/src/pages/Dashboard.tsx:187-212 | sets date and window only |
| Dashboard.DashboardPage.ToggleSlotAvailability | frontend/src/pages/Dashboard.tsx:86-88 | the slots become `Toggled`; nothing else changes |
| Dashboard.DashboardPage.SetAllSlots | frontend/src/pages/Dashboard.tsx:128-130 | the slots become `WithAll`, and the count is all or none |
| Dashboard.DashboardPage.HandleSaveStatus | frontend/src/pages/Dashboard.tsx:90-126 | sends status, window, date and the available times; success or error banner (server `error`, else "Failed to update availability", or the rejection's message); saving ends |
| Session.Seeded | frontend/src/App.tsx:28-33 | adds exactly the four session keys with the URL values or their defaults; every other key is kept |
| Session.UrlPage | frontend/src/App.tsx:41-47 | "dashboard" iff `profile_complete` or `is_login` is "true", else "complete-profile" |
| Session.Lookup | frontend/src/App.tsx:51-53 | a stored value iff the key is present |
| Session.StoredDecision | frontend/src/App.tsx:51-69 | redirect iff no truthy token or role other than "hospital"; otherwise "dashboard" iff `profile_complete` is "true", else "complete-profile" |
| Session.RenderPageName | frontend/src/App.tsx:76-97 | every page view is reached by exactly one page name |
| Session.RenderPageFallback | frontend/src/App.tsx:76-97 | a name that renders any page other than the dashboard names that page; "doctors" renders the dashboard |
| Session.RenderPage | frontend/src/App.tsx:76-97 | a name outside the seven known pages renders the dashboard |
| Session.PageName | frontend/src/App.tsx:76-97 | every view's name is a known page name that renders that view |
| Session.SeedThenReload | frontend/src/App.tsx:28-69 | after URL seeding, a reload redirects iff the URL gave a non-hospital role, and otherwise shows the page `profile_complete` decides |
| Session.App.constructor | frontend/src/App.tsx:17-18 | page "dashboard", authenticating |
| Session.App.Start | frontend/src/App.tsx:20-74 | URL token: seeds storage, shows `UrlPage`, stops authenticating; else storage unchanged and either a redirect (still authenticating) or the decided page |
| Session.App.Navigate | frontend/src/App.tsx:79 | any page name is accepted as the current page |
| CompleteProfile.WithFieldSets | frontend/src/pages/HospitalCompleteProfile.tsx:46-49 | an edit sets its input only; the last edit of an input wins; re-setting a value changes nothing |
| CompleteProfile.FormObject | frontend/src/pages/HospitalCompleteProfile.tsx:14-22 | an object of seven properties |
| CompleteProfile.FormObjectDistinct | frontend/src/pages/HospitalCompleteProfile.tsx:14-22 | its seven keys are distinct |
| CompleteProfile.FormObjectLookups | frontend/src/pages/HospitalCompleteProfile.tsx:99 | each input is stored under its own name |
| CompleteProfile.FormObjectOmitsStaffKeys | frontend/src/pages/HospitalCompleteProfile.tsx:99 | the stored form has no `name`, `email` or `phone` |
| CompleteProfile.StoredFormParses | frontend/src/pages/HospitalCompleteProfile.tsx:99 | the stored JSON parses back to the form |
| CompleteProfile.RequestBody | frontend/src/pages/HospitalCompleteProfile.tsx:79-87 | the seven form values, one to one and in the same order as the stored form; their keys are stated by RequestBodySends |
| CompleteProfile.RequestBodyDistinct | frontend/src/pages/HospitalCompleteProfile.tsx:79-87 | the seven keys of the request body are distinct |
| CompleteProfile.RequestBodySends | frontend/src/pages/HospitalCompleteProfile.tsx:79-87 | each camelCase input is sent under its own snake-case key: `registration_number`, `department`, `license_number`, `address`, `staff_position`, `hospital_phone`, `hospital_email` |
| CompleteProfile.ErrorMessage | frontend/src/pages/HospitalCompleteProfile.tsx:93 | the backend's `error`, else `message`, else "Failed to update profile"; never empty |
| CompleteProfile.SkipDraft | frontend/src/pages/HospitalCompleteProfile.tsx:52-56 | a warning titled "Complete Your Profile" for no appointment |
| CompleteProfile.CompletedThenReload | frontend/src/pages/HospitalCompleteProfile.tsx:98-99 | once the session is accepted, marking the profile complete (skip or complete) makes every later start show the dashboard |
| CompleteProfile.CompleteProfilePage.constructor | frontend/src/pages/HospitalCompleteProfile.tsx:14-26 | empty form, not loading, no error, backend assumed available |
| CompleteProfile.CompleteProfilePage.CheckBackendHealth | frontend/src/pages/HospitalCompleteProfile.tsx:29-44 | the backend counts as available iff the health request answered 2xx |
| CompleteProfile.CompleteProfilePage.HandleChange | frontend/src/pages/HospitalCompleteProfile.tsx:46-49 | only the named input changes |
| CompleteProfile.CompleteProfilePage.ButtonGuards | frontend/src/pages/HospitalCompleteProfile.tsx:233-246 | Skip disabled implies Complete disabled; Complete is enabled iff nothing is in flight and the health check succeeded; with the backend down Skip stays enabled |
| CompleteProfile.CompleteProfilePage.HandleSkip | frontend/src/pages/HospitalCompleteProfile.tsx:51-59 | a "Complete Your Profile" warning, `profile_complete` = "true", and the dashboard |
| CompleteProfile.CompleteProfilePage.HandleComplete | frontend/src/pages/HospitalCompleteProfile.tsx:61-107 | no token: error, nothing sent, storage unchanged; non-2xx: `ErrorMessage`; rejection: the connection error; 2xx: both keys stored and the dashboard |
| StaffProfile.WithFieldSets | frontend/src/pages/HospitalStaffProfile.tsx:251-285 | an edit sets its field only |
| StaffProfile.ProfileObject | frontend/src/pages/HospitalStaffProfile.tsx:16-25 | an object of eight properties (their keys distinct by `StaffProfile.ProfileObjectDistinct`) |
| StaffProfile.ProfileObjectDistinct | frontend/src/pages/HospitalStaffProfile.tsx:16-25 | its eight keys are distinct |
| StaffProfile.ProfileFromBackend | frontend/src/pages/HospitalStaffProfile.tsx:77-86 | each of the eight fields is its snake-case backend field (`full_name`, `email`, `hospital_phone`, `department`, `license_number`, `address`, `staff_position`, `hospital_email`) when truthy, else "" |
| StaffProfile.SaveBody | frontend/src/pages/HospitalStaffProfile.tsx:129-137 | seven properties, the request's payload (keys and values in `StaffProfile.SaveBodySends`) |
| StaffProfile.SaveBodyDistinct | frontend/src/pages/HospitalStaffProfile.tsx:129-137 | its seven keys are distinct |
| StaffProfile.SaveBodySends | frontend/src/pages/HospitalStaffProfile.tsx:129-137 | the license number goes out under both `registration_number` and `license_number`, the phone as `hospital_phone`, and department, address, position and hospital email under their snake-case keys |
| StaffProfile.SaveBodyOmitsName | frontend/src/pages/HospitalStaffProfile.tsx:129-137 | neither `full_name` nor `email` is sent |
| StaffProfile.Echo | frontend/src/pages/HospitalStaffProfile.tsx:129-137 | the save body plus `full_name` and `email` |
| StaffProfile.EchoDistinct | frontend/src/pages/HospitalStaffProfile.tsx:129-137 | its keys are distinct |
| StaffProfile.SaveThenLoad | frontend/src/pages/HospitalStaffProfile.tsx:77-86 | a saved profile echoed by the backend loads back unchanged |
| StaffProfile.ProfileFromStoredAsWritten | frontend/src/pages/HospitalStaffProfile.tsx:51-60 | the fallback as written: each field is the stored key of the same name when truthy, else "", except the phone, read from `hospitalPhone` |
| StaffProfile.ProfileFromStored | frontend/src/pages/HospitalStaffProfile.tsx:51-60 | agrees with the fallback as written whenever there is no `phone` key |
| StaffProfile.HospitalPhoneAbsent | frontend/src/pages/HospitalStaffProfile.tsx:143 | what Save stores has no `hospitalPhone` key |
| StaffProfile.FallbackLosesPhone | frontend/src/pages/HospitalStaffProfile.tsx:54 | as written, a saved profile with a phone parses back but the fallback reads an empty phone |
| StaffProfile.FallbackRestoresSaved | frontend/src/pages/HospitalStaffProfile.tsx:143 | with the corrected fallback, what Save stores loads back unchanged |
| StaffProfile.FallbackReadsCompletionForm | frontend/src/pages/HospitalStaffProfile.tsx:51-60 | the fallback reads the completion form's six values, with empty name and email |
| StaffProfile.StaffProfilePage.constructor | frontend/src/pages/HospitalStaffProfile.tsx:12-26 | loading, no error, not editing, empty profiles |
| StaffProfile.StaffProfilePage.LoadProfile | frontend/src/pages/HospitalStaffProfile.tsx:28-98 | no token: the error; 2xx: both profiles from the backend; non-2xx: the stored fallback (the corrected one) when stored text is truthy, a parse failure as "Failed to fetch profile data"; rejection: that error; loading ends |
| StaffProfile.StaffProfilePage.StartEditing | frontend/src/pages/HospitalStaffProfile.tsx:216 | editing starts, nothing else changes |
| StaffProfile.StaffProfilePage.EditField | frontend/src/pages/HospitalStaffProfile.tsx:251-285 | only the edited field changes |
| StaffProfile.StaffProfilePage.HandleEditSave | frontend/src/pages/HospitalStaffProfile.tsx:115-151 | no token: error, nothing sent; the body is `SaveBody`; 2xx: shown profile = edited, editing ends, profile stored; otherwise only the error |
| StaffProfile.StaffProfilePage.HandleSignOut | frontend/src/pages/HospitalStaffProfile.tsx:153-160 | removes exactly the five session keys; any later start redirects |
| Availability.WithDuration | frontend/src/pages/AvailabilitySlots.tsx:86 | only the duration changes, to a non-negative integer |
| Availability.DurationOptionRoundTrip | frontend/src/pages/AvailabilitySlots.tsx:277-281 | choosing any select option sets exactly that duration |
| Availability.ChooseDoctorId | frontend/src/pages/AvailabilitySlots.tsx:96-101 | no id iff both the form's and the stored id are empty; the form's id wins; never "" |
| Availability.ResetFormUsesUser | frontend/src/pages/AvailabilitySlots.tsx:121-127 | after the reset, a submit uses the stored user id |
| Availability.CardTitle | frontend/src/pages/AvailabilitySlots.tsx:310 | "Doctor: " followed by the doctor's name when truthy, else by the id |
| Availability.StatusLabel | frontend/src/pages/AvailabilitySlots.tsx:324 | the badge reads Available iff the slot is available, else Unavailable |
| Availability.ToggleLabel | frontend/src/pages/AvailabilitySlots.tsx:334 | the button reads Disable iff the slot is available, else Enable |
| Availability.ToggleMessage | frontend/src/pages/AvailabilitySlots.tsx:152 | the banner says "disabled" iff the slot was available when toggled (the button read Disable), else "enabled" |
| Availability.SlotsUrlNamesHospital | frontend/src/pages/AvailabilitySlots.tsx:56-60 | distinct stored ids fetch distinct lists; a missing id fetches the list of the hospital whose id is the text "null" |
| Availability.AvailabilityPage.constructor | frontend/src/pages/AvailabilitySlots.tsx:27-37 | empty list, loading, no banners, the empty form |
| Availability.AvailabilityPage.Mount | frontend/src/pages/AvailabilitySlots.tsx:39-50 | the form's doctor id becomes the stored user id when truthy |
| Availability.AvailabilityPage.FetchAvailabilities | frontend/src/pages/AvailabilitySlots.tsx:52-80 | 2xx: the fetched list, or empty when the answer has no list, no error; otherwise the list is kept and the error set; loading ends |
| Availability.AvailabilityPage.HandleTextChange | frontend/src/pages/AvailabilitySlots.tsx:82-88 | only the named text input changes |
| Availability.AvailabilityPage.HandleDurationChange | frontend/src/pages/AvailabilitySlots.tsx:82-88 | only the duration changes, parsed |
| Availability.AvailabilityPage.HandleAddAvailability | frontend/src/pages/AvailabilitySlots.tsx:90-134 | no id: the error, nothing sent; the body is the form with the chosen id; 2xx: banner, reset form, reload; failure: the error |
| Availability.AvailabilityPage.HandleToggleAvailability | frontend/src/pages/AvailabilitySlots.tsx:136-160 | 2xx: the toggle banner and a reload; otherwise the error |
| DoctorManagement.FilteredDoctors | frontend/src/pages/DoctorManagement.tsx:79-83 | kept iff the name contains the term ignoring case and the specialty matches unless "all"; an order-preserving subsequence |
| DoctorManagement.FilteredDoctorsCount | frontend/src/pages/DoctorManagement.tsx:79-83 | as many doctors are shown as pass both filters, equal records counted each time |
| DoctorManagement.ShowAllByDefault | frontend/src/pages/DoctorManagement.tsx:79-83 | empty search with "all" shows every doctor |
| DoctorManagement.SpecialtyFilterExact | frontend/src/pages/DoctorManagement.tsx:81 | a specialty filter shows only that specialty |
| DoctorManagement.SpecialtyOptions | frontend/src/pages/DoctorManagement.tsx:166-167 | exactly the specialties other than "all", in order |
| DoctorManagement.SpecialtyOptionsOfPage | frontend/src/pages/DoctorManagement.tsx:77 | for the page's list, the options are its six named specialties in order |
| DoctorManagement.CountLabel | frontend/src/pages/DoctorManagement.tsx:147-148 | "doctor" is plural unless exactly one is shown |
| PatientRecords.FilteredPatients | frontend/src/pages/PatientRecords.tsx:65 | kept iff the name contains the term ignoring case; an order-preserving subsequence, no longer |
| PatientRecords.FilteredPatientsCount | frontend/src/pages/PatientRecords.tsx:65 | as many patients are shown as match the search, equal records counted each time |
| PatientRecords.EmptySearchShowsAll | frontend/src/pages/PatientRecords.tsx:65 | an empty search shows every patient |
| PatientRecords.SearchIgnoresId | frontend/src/pages/PatientRecords.tsx:65 | two patients with the same name are shown or hidden together, whatever their ids |
| PatientRecords.ConditionsCell | frontend/src/pages/PatientRecords.tsx:152 | "No conditions" for none, else the conditions joined by ", " |
| PatientRecords.StatusBadge | frontend/src/pages/PatientRecords.tsx:148 | the status with its first letter upper-cased and the rest kept |
| PatientRecords.CountLabel | frontend/src/pages/PatientRecords.tsx:109-110 | "patient" is plural unless exactly one is shown |
| Diagnostics.FilteredTests | frontend/src/pages/DiagnosticsManagement.tsx:40-42 | a status other than "all" keeps exactly the tests with it; an order-preserving subsequence |
| Diagnostics.AllShowsEverything | frontend/src/pages/DiagnosticsManagement.tsx:40-42 | "all" keeps every test |
| Diagnostics.FilteredCount | frontend/src/pages/DiagnosticsManagement.tsx:40-42 | the number shown is the number of tests the filter accepts |
| Diagnostics.StatusLabel | frontend/src/pages/DiagnosticsManagement.tsx:90 | "All Tests" for "all", else the status with its first letter upper-cased |
| Text.Or | frontend/src/pages/HospitalStaffProfile.tsx:78 | `v \|\| fallback`: the value when truthy, else the fallback; non-empty iff either is |
| Text.Either | frontend/src/pages/AppointmentManagement.tsx:121 | `a \|\| b` on two lookups: the first when it is truthy, else the second; truthy iff either is |
| Text.Lower | frontend/src/pages/DoctorManagement.tsx:80 | same length, lower-cased character by character |
| Text.EmptyTermMatches | frontend/src/pages/PatientRecords.tsx:65 | the empty term matches every name |
| Text.SearchIgnoresTermCase | frontend/src/pages/DoctorManagement.tsx:80 | lower-casing the term changes no match |
| Text.FoundLabel | frontend/src/pages/PatientRecords.tsx:109-110 | "Found 1 <noun>" for one, else the decimal count and the plural noun |
| Text.Join | frontend/src/pages/PatientRecords.tsx:152 | the empty list joins to "", one element to itself |
| Text.JoinAppend | frontend/src/pages/PatientRecords.tsx:152 | joining one more element appends the separator and that element |
| Text.Capitalize | frontend/src/pages/DiagnosticsManagement.tsx:90 | first character upper-cased, the rest kept |
| Text.ParseNatToString | frontend/src/pages/AvailabilitySlots.tsx:86 | `parseInt` reads back any printed number |
| Text.PluralSuffix | frontend/src/pages/AppointmentManagement.tsx:162 | the suffix is empty iff the count is 1 |
| Seqs.Filter | frontend/src/pages/PatientRecords.tsx:65 | `Array.filter`: exactly the accepted elements, an order-preserving subsequence |
| Text.IncludesAt | frontend/src/pages/DoctorManagement.tsx:80 | `includes` holds iff the term occurs at some position |
| Text.NatToString | frontend/src/pages/PatientRecords.tsx:109 | a decimal numeral, one digit exactly for numbers below 10, with a leading zero only for 0 |
| Seqs.Count | frontend/src/pages/DiagnosticsManagement.tsx:40-42 | at most the length; the length iff all are accepted, 0 iff none |
| Seqs.CountIsFilterLength | frontend/src/pages/DiagnosticsManagement.tsx:40-42 | counting equals the length of the filter |
| Seqs.FilterKeepsAll | frontend/src/pages/DoctorManagement.tsx:79-83 | a filter accepting every element returns the list itself |
| JsObjects.Keys | frontend/src/pages/HospitalStaffProfile.tsx:50-58 | the keys in property order |
| JsObjects.Get | frontend/src/pages/HospitalStaffProfile.tsx:51-58 | a value iff the key is present |
| JsObjects.GetAt | frontend/src/pages/HospitalStaffProfile.tsx:51-58 | with distinct keys, each property's key reads its value |
| JsObjects.SetKeepsKeys | frontend/src/pages/HospitalStaffProfile.tsx:255 | an update removes no key |
| JsObjects.SetSame | frontend/src/pages/HospitalStaffProfile.tsx:255 | writing back a key's own value changes nothing |
| JsObjects.SetGet | frontend/src/pages/HospitalStaffProfile.tsx:255 | after an update the key reads the new value |
| JsObjects.SetExisting | frontend/src/pages/HospitalStaffProfile.tsx:255 | updating a present key keeps every key in place |
| JsObjects.SetFresh | frontend/src/pages/HospitalStaffProfile.tsx:255 | updating an absent key appends it |
| JsObjects.SetOther | frontend/src/pages/HospitalStaffProfile.tsx:255 | an update changes no other key's value |
| JsObjects.SetSetSameKey | frontend/src/pages/HospitalStaffProfile.tsx:255 | the last update of a key wins |
| JsObjects.SetDistinct | frontend/src/pages/HospitalStaffProfile.tsx:255 | updates keep keys distinct |
| Json.ParseStringify | frontend/src/pages/HospitalStaffProfile.tsx:50 | parsing the stringified flat object of strings returns it |
| Storage.LocalStorage.GetItem | frontend/src/App.tsx:51 | a value iff the key is stored, and then the stored one |
| Storage.LocalStorage.SetItem | frontend/src/App.tsx:30 | the key maps to the value; every other key is kept |
| Storage.LocalStorage.RemoveItem | frontend/src/pages/HospitalStaffProfile.tsx:154 | the key is gone; every other key is kept |

## Findings

| source | as written | input that shows it | evidently intended | confidence | as-written member | corrected member |
|---|---|---|---|---|---|---|
| frontend/src/pages/HospitalStaffProfile.tsx:54 | the local fallback reads the phone from `hospitalPhone`; Save (line 143) stores the edited profile, whose phone key is `phone` | save a profile with phone "555", then load with a non-2xx answer: the phone shows "" | a profile stored by Save loads back with its phone | not executed | StaffProfile.FallbackLosesPhone | StaffProfile.FallbackRestoresSaved |

`StaffProfile.ProfileFromStoredAsWritten` is the fallback as written. `StaffProfile.ProfileFromStored` is the corrected one: it reads `hospitalPhone`, else `phone`. `StaffProfilePage.LoadProfile` uses the corrected fallback. It still agrees with the original on everything the completion form stores, which has no `phone` key (`StaffProfile.ProfileFromStored`, `StaffProfile.FallbackReadsCompletionForm`).

## Left out

- The network is not modelled. Every `fetch` is an outcome given as a parameter, which also covers `response.json()` rejecting: that is `Thrown`. Headers are modelled only where a request is built (`Appointments.StatusRequest`).
- Request payloads the pages read are given already parsed as typed records. This covers the schedule, the dashboard's `today` list, the slot list and the notification list. The dashboard's `today` list, the slot list and the notification list may be absent (`Option` fields); the source falls back to an empty list for each, and so does the model. The appointment page's schedule has its three arrays required: if one is missing, the source throws in the spread (frontend/src/pages/AppointmentManagement.tsx:142), and the model cannot state that case.
- `setTimeout` banner dismissal is not modelled; only setting the message is.
- Concurrency is not modelled. The `Promise.all` enrichment is one snapshot per appointment, each request's outcome a function of the id. The un-awaited reload after a transition is returned as a flag (`reload`), with no order against the notification refresh.
- `Date.now()` ids and `new Date()` timestamps are parameters. Ids are not assumed unique.
- `prompt()` for the cancellation reason is an input.
- `window.location` redirects are returned as the target URL, not performed.
- `toISOString` default dates are a constructor parameter.
- Unicode case folding is out of scope: `Text.Lower` and `Text.UpperChar` map ASCII letters only.
- Availability.WithDuration: `parseInt` is modelled only on decimal text, the values the select offers; other text is excluded by its precondition.
- The JSON reader covers what the pages store: flat objects whose values are strings, with no whitespace between tokens. Any other text, and `\u` surrogate pairs, read as a parse failure. `JSON.parse` would accept such text or build other values.
- Input `name` attributes are modelled as enumerations of the declared fields. An event carrying another name would add a key in the source.
- JSX markup, styling, the Navigation, DoctorCard and StatCard components, and the hard-coded demo arrays are not part of this model. Nor are the fixed doctor, patient and test lists, which the filters take as inputs.
- StaffProfile.StaffProfilePage.LoadProfile: on a non-2xx answer it reads the stored profile with the corrected fallback `StaffProfile.ProfileFromStored`, not the code as written. For a profile stored by Save with a non-empty phone, the page as written shows an empty phone (line 54 of `HospitalStaffProfile.tsx`) where the model shows the saved one; the as-written behaviour is `StaffProfile.ProfileFromStoredAsWritten`, and the difference is `StaffProfile.FallbackLosesPhone`.
- Notifications.NotificationStore.ClearNotifications: a rejection is modelled per request index (`throwsAt`). A non-2xx status does not stop the loop, as in the source.
- The health check is an outcome passed to `CheckBackendHealth`.
