/**
 * The SwiftUI sample app `MainApp` (Apps/CocoaPods-FCM/src/App.swift): which
 * screen it shows, and how a deep link changes its state.
 *
 * The state is the optional settings overlay (`@State settingsScreen`) and
 * the user manager's logged-in flag. `OpenUrl` is the specification of the
 * `onOpenURL` handler; `MainApp.OnOpenUrl` is the handler itself, written as
 * the imperative code it is.
 */
module MainApp {
  import opened Wrappers
  import opened DeepLink

  /** A `SettingsView` as the handler builds it: the two pre-filled values. */
  datatype SettingsView = SettingsView(siteId: Option<string>, cdpApiKey: Option<string>)

  /** The state the app's body is drawn from. */
  datatype AppState = AppState(settingsScreen: Option<SettingsView>, isUserLoggedIn: bool)

  /** The three screens the window can show. */
  datatype Screen = Settings(view: SettingsView) | Dashboard | Login

  /** The commands the handler recognises. */
  const LoginCommand: string := "login"
  const DashboardCommand: string := "dashboard"
  const SettingsCommand: string := "settings"

  /** The query item names the settings command reads. */
  const SiteIdItem: string := "site_id"
  const CdpApiKeyItem: string := "cdp_api_key"

  /**
   * The screen `body` shows: the settings overlay when there is one, else the
   * dashboard for a logged-in user, else the login screen.
   */
  function Shown(s: AppState): (v: Screen)
    ensures v.Settings? <==> s.settingsScreen.Some?
    ensures v.Settings? ==> Some(v.view) == s.settingsScreen
    ensures v == Dashboard <==> s.settingsScreen.None? && s.isUserLoggedIn
    ensures v == Login <==> s.settingsScreen.None? && !s.isUserLoggedIn
  {
    match s.settingsScreen
    case Some(view) => Settings(view)
    case None => if s.isUserLoggedIn then Dashboard else Login
  }

  /** The settings view a `settings` deep link opens, pre-filled from its query. */
  function SettingsFor(u: UrlComponents): (view: SettingsView)
    ensures view.siteId == QueryValue(u.queryItems, SiteIdItem)
    ensures view.cdpApiKey == QueryValue(u.queryItems, CdpApiKeyItem)
    ensures u.queryItems.None? ==> view == SettingsView(None, None)
  {
    SettingsView(QueryValue(u.queryItems, SiteIdItem), QueryValue(u.queryItems, CdpApiKeyItem))
  }

  /** A deep link the handler does not crash on. */
  predicate Handleable(deepLink: Option<UrlComponents>) {
    deepLink.Some? ==> HasCommand(deepLink.value)
  }

  /**
   * The new state after a deep link: `login` logs the user out, `dashboard`
   * closes the settings overlay, `settings` opens it pre-filled from the
   * query, and anything else (or a URL that cannot be decomposed, `None`)
   * changes nothing.
   */
  function OpenUrl(s: AppState, deepLink: Option<UrlComponents>): (t: AppState)
    requires Handleable(deepLink)
    ensures deepLink.None? ==> t == s
    ensures deepLink.Some? && Command(deepLink.value) == LoginCommand ==>
      !t.isUserLoggedIn && t.settingsScreen == s.settingsScreen
    ensures deepLink.Some? && Command(deepLink.value) == DashboardCommand ==>
      t.settingsScreen == None && t.isUserLoggedIn == s.isUserLoggedIn
    ensures deepLink.Some? && Command(deepLink.value) == SettingsCommand ==>
      t.settingsScreen == Some(SettingsFor(deepLink.value)) && t.isUserLoggedIn == s.isUserLoggedIn
    ensures deepLink.Some? && Command(deepLink.value) !in {LoginCommand, DashboardCommand, SettingsCommand} ==>
      t == s
  {
    match deepLink
    case None => s
    case Some(u) =>
      var command := Command(u);
      if command == LoginCommand then s.(isUserLoggedIn := false)
      else if command == DashboardCommand then s.(settingsScreen := None)
      else if command == SettingsCommand then s.(settingsScreen := Some(SettingsFor(u)))
      else s
  }

  /** The settings view's dismiss callback: the overlay closes, nothing else changes. */
  function Dismiss(s: AppState): (t: AppState)
    ensures t.settingsScreen == None && t.isUserLoggedIn == s.isUserLoggedIn
    ensures Shown(t) != Shown(s) ==> Shown(s).Settings?
  {
    s.(settingsScreen := None)
  }

  /** Following the same deep link twice has the effect of following it once. */
  lemma OpenUrlIdempotent(s: AppState, deepLink: Option<UrlComponents>)
    requires Handleable(deepLink)
    ensures OpenUrl(OpenUrl(s, deepLink), deepLink) == OpenUrl(s, deepLink)
  {
  }

  /**
   * What the user sees after a deep link: `settings` shows the pre-filled
   * settings screen; `dashboard` shows the dashboard exactly when the user is
   * logged in; `login` never leaves the dashboard up, and shows the login
   * screen exactly when no settings overlay was open; any other command keeps
   * the screen as it was.
   */
  lemma ScreenAfterOpenUrl(s: AppState, u: UrlComponents)
    requires HasCommand(u)
    ensures Command(u) == SettingsCommand ==> Shown(OpenUrl(s, Some(u))) == Settings(SettingsFor(u))
    ensures Command(u) == DashboardCommand ==> (Shown(OpenUrl(s, Some(u))) == Dashboard <==> s.isUserLoggedIn)
    ensures Command(u) == LoginCommand ==> Shown(OpenUrl(s, Some(u))) != Dashboard
    ensures Command(u) == LoginCommand ==> (Shown(OpenUrl(s, Some(u))) == Login <==> s.settingsScreen.None?)
    ensures Command(u) !in {LoginCommand, DashboardCommand, SettingsCommand} ==> Shown(OpenUrl(s, Some(u))) == Shown(s)
  {
  }

  /**
   * Opening settings by deep link and then dismissing them brings back the
   * screen shown before, when no overlay was open then.
   */
  lemma SettingsThenDismiss(s: AppState, u: UrlComponents)
    requires HasCommand(u) && Command(u) == SettingsCommand
    requires s.settingsScreen.None?
    ensures Dismiss(OpenUrl(s, Some(u))) == s
    ensures Shown(Dismiss(OpenUrl(s, Some(u)))) == Shown(s)
  {
  }

  /** The query `site_id=ABC&cdp_api_key=XYZ`. */
  const ExampleQuery: seq<QueryItem> := [QueryItem("site_id", Some("ABC")), QueryItem("cdp_api_key", Some("XYZ"))]

  lemma ExampleQueryPrefills(u: UrlComponents)
    requires u.queryItems == Some(ExampleQuery)
    ensures SettingsFor(u) == SettingsView(Some("ABC"), Some("XYZ"))
  {
    assert IsFirstNamed(ExampleQuery, SiteIdItem, 0);
    assert IsFirstNamed(ExampleQuery, CdpApiKeyItem, 1);
  }

  /**
   * The universal link `https://<host>/settings?site_id=ABC&cdp_api_key=XYZ`
   * opens the settings screen pre-filled with "ABC" and "XYZ".
   */
  lemma UniversalSettingsLinkExample(s: AppState, host: Option<string>)
    ensures Shown(OpenUrl(s, Some(UrlComponents(Some("https"), host, "/settings", Some(ExampleQuery)))))
      == Settings(SettingsView(Some("ABC"), Some("XYZ")))
  {
    var u := UrlComponents(Some("https"), host, "/settings", Some(ExampleQuery));
    UniversalLinkCommand(host, SettingsCommand, false, Some(ExampleQuery));
    assert "/" + SettingsCommand + "" == "/settings";
    ExampleQueryPrefills(u);
    ScreenAfterOpenUrl(s, u);
  }

  /** `UserManager`, reduced to the logged-in flag and `logout()`. */
  class UserManager {
    var isUserLoggedIn: bool

    /** The flag's starting value is whatever the manager restores. */
    constructor (loggedIn: bool)
      ensures isUserLoggedIn == loggedIn
    {
      isUserLoggedIn := loggedIn;
    }

    method Logout()
      modifies this
      ensures !isUserLoggedIn
    {
      isUserLoggedIn := false;
    }
  }

  /** The app: its `@StateObject` user manager and its `@State` settings overlay. */
  class MainApp {
    const userManager: UserManager
    var settingsScreen: Option<SettingsView>

    function State(): AppState
      reads this, userManager
    {
      AppState(settingsScreen, userManager.isUserLoggedIn)
    }

    /** The overlay starts closed. */
    constructor (userManager: UserManager)
      ensures this.userManager == userManager
      ensures State() == AppState(None, old(userManager.isUserLoggedIn))
    {
      this.userManager := userManager;
      settingsScreen := None;
    }

    /** The screen `body` draws. */
    function Body(): (v: Screen)
      reads this, userManager
      ensures v == Shown(State())
    {
      if settingsScreen.Some? then Settings(settingsScreen.value)
      else if userManager.isUserLoggedIn then Dashboard
      else Login
    }

    /** The `onOpenURL` handler. */
    method OnOpenUrl(deepLink: Option<UrlComponents>)
      requires Handleable(deepLink)
      modifies this, userManager
      ensures State() == OpenUrl(old(State()), deepLink)
    {
      if deepLink.Some? {
        var urlComponents := deepLink.value;
        var command := "";
        if urlComponents.scheme == Some(UniversalLinkScheme) {
          command := StripSlashes(urlComponents.path);
        } else {
          command := urlComponents.host.value;
        }

        if command == LoginCommand {
          userManager.Logout();
        } else if command == DashboardCommand {
          settingsScreen := None;
        } else if command == SettingsCommand {
          var siteId: Option<string> := None;
          var cdpApiKey: Option<string> := None;
          if urlComponents.queryItems.Some? {
            siteId := QueryValue(urlComponents.queryItems, SiteIdItem);
            cdpApiKey := QueryValue(urlComponents.queryItems, CdpApiKeyItem);
          }
          settingsScreen := Some(SettingsView(siteId, cdpApiKey));
        }
      }
    }

    /** The settings view's dismiss callback. */
    method DismissSettings()
      modifies this
      ensures State() == Dismiss(old(State()))
    {
      settingsScreen := None;
    }
  }
}
