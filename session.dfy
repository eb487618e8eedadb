/** The shell of the application (App.tsx): seeding the session from the URL or taking it
    from localStorage, the redirect to the authentication app, and the page switch. */
module Session {
  import opened Wrappers
  import opened Text
  import Storage

  /** Where an unauthenticated visitor is sent. */
  const AuthAppUrl: string := "http://localhost:5173"

  /** The query parameters the authentication app hands over; `None` is an absent one. */
  datatype UrlParams = UrlParams(
    token: Option<string>, role: Option<string>, userId: Option<string>,
    profileComplete: Option<string>, isLogin: Option<string>)

  /** What a start from localStorage decides: show a page, or leave for another URL. */
  datatype Decision = Show(page: string) | Redirect(url: string)

  /** The page components the switch can render. */
  datatype View =
    | CompleteProfileView | DashboardView | PatientsView | AppointmentsView
    | AvailabilityView | DiagnosticsView | ProfileView

  /** The localStorage entries written when the URL carries a token. */
  function Seeded(items: map<string, string>, p: UrlParams): (r: map<string, string>)
    requires p.token.Some?
    ensures r.Keys == items.Keys + {"auth_token", "user_role", "user_id", "profile_complete"}
    ensures r["auth_token"] == p.token.value
    ensures r["user_role"] == (if Truthy(p.role) then p.role.value else "hospital")
    ensures r["user_id"] == (if Truthy(p.userId) then p.userId.value else "")
    ensures r["profile_complete"] == (if Truthy(p.profileComplete) then p.profileComplete.value else "false")
    ensures forall k :: k in items && k !in {"auth_token", "user_role", "user_id", "profile_complete"} ==> r[k] == items[k]
  {
    items["auth_token" := p.token.value]
      ["user_role" := Or(p.role, "hospital")]
      ["user_id" := Or(p.userId, "")]
      ["profile_complete" := Or(p.profileComplete, "false")]
  }

  /** The page chosen from the URL: the completion form unless the profile is complete or
      the visitor is logging in. The role is not looked at. */
  function UrlPage(p: UrlParams): (page: string)
    ensures page == "dashboard" <==> p.profileComplete == Some("true") || p.isLogin == Some("true")
    ensures page == "dashboard" || page == "complete-profile"
  {
    if p.profileComplete != Some("true") && p.isLogin != Some("true") then "complete-profile" else "dashboard"
  }

  function Lookup(items: map<string, string>, key: string): (r: Option<string>)
    ensures r.Some? <==> key in items
    ensures r.Some? ==> r.value == items[key]
  {
    if key in items then Some(items[key]) else None
  }

  /** The decision without a URL token: a missing or empty token, or a role other than
      `hospital`, leaves for the authentication app; otherwise the dashboard when the
      profile is complete, the completion form when it is not. */
  function StoredDecision(items: map<string, string>): (d: Decision)
    ensures d.Redirect? <==> !Truthy(Lookup(items, "auth_token")) || Lookup(items, "user_role") != Some("hospital")
    ensures d.Redirect? ==> d.url == AuthAppUrl
    ensures d.Show? ==> (d.page == "dashboard" <==> Lookup(items, "profile_complete") == Some("true"))
    ensures d.Show? ==> d.page == "dashboard" || d.page == "complete-profile"
  {
    var token := Lookup(items, "auth_token");
    var role := Lookup(items, "user_role");
    if !Truthy(token) || role != Some("hospital") then Redirect(AuthAppUrl)
    else if Lookup(items, "profile_complete") == Some("true") then Show("dashboard")
    else Show("complete-profile")
  }

  /** The seven page names with a page of their own. */
  const KnownPages: set<string> :=
    {"complete-profile", "dashboard", "patients", "appointments", "availability", "diagnostics", "profile"}

  /** `renderPage()`: the seven known names have their own page; any other name, the
      disabled `doctors` page included, falls back to the dashboard. */
  function RenderPage(current: string): (v: View)
    ensures current !in KnownPages ==> v == DashboardView
  {
    match current
    case "complete-profile" => CompleteProfileView
    case "dashboard" => DashboardView
    case "patients" => PatientsView
    case "appointments" => AppointmentsView
    case "availability" => AvailabilityView
    case "diagnostics" => DiagnosticsView
    case "profile" => ProfileView
    case _ => DashboardView
  }

  /** The page name the navigation uses for a view. */
  function PageName(v: View): (name: string)
    ensures name in KnownPages && RenderPage(name) == v
  {
    match v
    case CompleteProfileView => "complete-profile"
    case DashboardView => "dashboard"
    case PatientsView => "patients"
    case AppointmentsView => "appointments"
    case AvailabilityView => "availability"
    case DiagnosticsView => "diagnostics"
    case ProfileView => "profile"
  }

  /** Every view is reached by its own name, and no two views share a name. */
  lemma RenderPageName(v: View, w: View)
    ensures RenderPage(PageName(v)) == v
    ensures PageName(v) == PageName(w) ==> v == w
  {
  }

  /** Only the known names select something other than the dashboard. */
  lemma RenderPageFallback(current: string)
    ensures RenderPage(current) != DashboardView ==> PageName(RenderPage(current)) == current
    ensures current == "doctors" ==> RenderPage(current) == DashboardView
  {
  }

  /** A start seeded from the URL, followed by a reload without URL parameters: the
      reload leaves when the URL named a role other than `hospital`; otherwise it shows
      the page the URL chose, except when the visitor was logging in with an incomplete
      profile, who gets the completion form on reload after the dashboard. */
  lemma SeedThenReload(items: map<string, string>, p: UrlParams)
    requires Truthy(p.token)
    ensures StoredDecision(Seeded(items, p)).Redirect? <==> Truthy(p.role) && p.role.value != "hospital"
    ensures StoredDecision(Seeded(items, p)).Show? && p.isLogin != Some("true") ==>
      StoredDecision(Seeded(items, p)).page == UrlPage(p)
    ensures StoredDecision(Seeded(items, p)).Show? && p.isLogin == Some("true") && p.profileComplete != Some("true") ==>
      UrlPage(p) == "dashboard" && StoredDecision(Seeded(items, p)).page == "complete-profile"
  {
    var s := Seeded(items, p);
    assert Lookup(s, "auth_token") == p.token;
    assert Lookup(s, "user_role") == Some(Or(p.role, "hospital"));
    assert Lookup(s, "profile_complete") == Some(Or(p.profileComplete, "false"));
  }

  /** The application's state: the current page, whether the start is still deciding,
      and where the window was sent, if anywhere. */
  class App {
    var currentPage: string
    var isAuthenticating: bool
    var redirect: Option<string>

    constructor ()
      ensures currentPage == "dashboard" && isAuthenticating && redirect.None?
    {
      currentPage, isAuthenticating, redirect := "dashboard", true, None;
    }

    /** The start effect. A URL token seeds localStorage and picks the page from the URL.
        Without one, localStorage decides: a redirect leaves the app authenticating on the
        old page, otherwise the decided page is shown. */
    method Start(storage: Storage.LocalStorage, p: UrlParams)
      modifies this, storage
      ensures Truthy(p.token) ==>
        storage.items == Seeded(old(storage.items), p) &&
        currentPage == UrlPage(p) && !isAuthenticating && redirect == old(redirect)
      ensures !Truthy(p.token) ==> storage.items == old(storage.items)
      ensures !Truthy(p.token) && StoredDecision(old(storage.items)).Redirect? ==>
        redirect == Some(AuthAppUrl) && isAuthenticating == old(isAuthenticating) && currentPage == old(currentPage)
      ensures !Truthy(p.token) && StoredDecision(old(storage.items)).Show? ==>
        currentPage == StoredDecision(old(storage.items)).page && !isAuthenticating && redirect == old(redirect)
    {
      if Truthy(p.token) {
        storage.SetItem("auth_token", p.token.value);
        storage.SetItem("user_role", Or(p.role, "hospital"));
        storage.SetItem("user_id", Or(p.userId, ""));
        storage.SetItem("profile_complete", Or(p.profileComplete, "false"));
        currentPage := UrlPage(p);
        isAuthenticating := false;
      } else {
        var decision := StoredDecision(storage.items);
        match decision {
          case Redirect(url) =>
            redirect := Some(url);
          case Show(page) =>
            currentPage := page;
            isAuthenticating := false;
        }
      }
    }

    /** `onNavigate`: any page name may be set; the switch decides what it shows. */
    method Navigate(page: string)
      modifies this
      ensures currentPage == page && isAuthenticating == old(isAuthenticating) && redirect == old(redirect)
    {
      currentPage := page;
    }
  }
}
