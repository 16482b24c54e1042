/** The top-level view router (App.tsx): one `view` field, overwritten by
    the screens' callbacks, and a switch that picks the screen to show. */
module AppShell {

  const LandingView: string := "landing"
  const LoginView: string := "login"
  const DashboardView: string := "dashboard"

  datatype Screen = LandingPage | LoginScreen | DashboardScreen

  /** `renderView`: one screen per view, and the login screen for any other
      value. */
  function RenderView(view: string): Screen {
    if view == LandingView then LandingPage
    else if view == LoginView then LoginScreen
    else if view == DashboardView then DashboardScreen
    else LoginScreen
  }

  /** The three callbacks a screen can fire: the login form's
      `onLoginSuccess`, the dashboard's `onLogout` and the landing page's
      `onLaunch`. */
  datatype Event = LoginSucceeded | LoggedOut | Launched

  /** The screen that is handed the callback for `e`. */
  function OfferedBy(e: Event): Screen {
    match e
    case LoginSucceeded => LoginScreen
    case LoggedOut => DashboardScreen
    case Launched => LandingPage
  }

  /** The view a callback sets. */
  function Next(e: Event): string {
    match e
    case LoginSucceeded => DashboardView
    case LoggedOut => LoginView
    case Launched => LoginView
  }

  /** The view after a sequence of callbacks, each fired only if the screen
      on show offers it. */
  function Run(view: string, events: seq<Event>): string
    decreases |events|
  {
    if |events| == 0 then view
    else
      var v := if OfferedBy(events[0]) == RenderView(view) then Next(events[0]) else view;
      Run(v, events[1..])
  }

  /** Every view value has exactly one screen; unknown values fall back to
      the login screen. */
  lemma RenderViewFallback(view: string)
    ensures RenderView(view) == LandingPage <==> view == LandingView
    ensures RenderView(view) == DashboardScreen <==> view == DashboardView
    ensures RenderView(view) == LoginScreen <==> view != LandingView && view != DashboardView
  {
  }

  /** No callback sets 'landing': starting from 'login', the view is always
      'login' or 'dashboard', the landing page is never shown, and so its
      launch callback is never offered. */
  lemma {:induction false} LandingUnreachable(view: string, events: seq<Event>)
    requires view == LoginView || view == DashboardView
    ensures Run(view, events) == LoginView || Run(view, events) == DashboardView
    ensures RenderView(Run(view, events)) != LandingPage
    decreases |events|
  {
    if |events| > 0 {
      var v := if OfferedBy(events[0]) == RenderView(view) then Next(events[0]) else view;
      LandingUnreachable(v, events[1..]);
    }
  }

  /** From 'login', a successful login shows the dashboard, and logging out
      from there returns to the login screen. */
  lemma LoginLogoutRoundTrip()
    ensures Run(LoginView, [LoginSucceeded]) == DashboardView
    ensures Run(LoginView, [LoginSucceeded, LoggedOut]) == LoginView
  {
    assert [LoginSucceeded, LoggedOut][1..] == [LoggedOut];
  }

  class App {
    var view: string

    /** The initial view is 'login'. */
    constructor ()
      ensures view == LoginView
    {
      view := LoginView;
    }

    /** `handleLoginSuccess`. */
    method HandleLoginSuccess()
      modifies this
      ensures view == DashboardView
    {
      view := DashboardView;
    }

    /** `handleLogout`. */
    method HandleLogout()
      modifies this
      ensures view == LoginView
    {
      view := LoginView;
    }

    /** The landing page's `onLaunch`. */
    method Launch()
      modifies this
      ensures view == LoginView
    {
      view := LoginView;
    }

    /** Fires `e` if the screen on show offers it, as `Run` does for one event. */
    method Dispatch(e: Event)
      modifies this
      ensures view == Run(old(view), [e])
    {
      if OfferedBy(e) == RenderView(view) {
        match e
        case LoginSucceeded => HandleLoginSuccess();
        case LoggedOut => HandleLogout();
        case Launched => Launch();
      }
    }
  }
}
