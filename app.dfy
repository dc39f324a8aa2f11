/** The application shell (App.tsx): the current view, the signed-in user (if any) and the
    display language, the handlers that change them, and the choice of what to render. */
module App {
  import opened Types
  import opened Effects
  import Layout

  /** The language-toggle button's choice: the other of the two languages. */
  function Toggled(l: Language): (r: Language)
    ensures r != l
  {
    if l == Ar then En else Ar
  }

  /** Toggling twice gives the language back. */
  lemma ToggleTwice(l: Language)
    ensures Toggled(Toggled(l)) == l
  {
  }

  /** What `renderContent` returns; the screens that show user data carry the user. */
  datatype Screen =
    | LandingScreen
    | LoginScreen
    | FacultiesScreen
    | DriveScreen
    | EvaluationScreen
    | DirectoryScreen
    | ComplaintsScreen
    | ResultsScreen(user: User)
    | ServicesScreen
    | DashboardScreen(viewer: Option<User>)
    | SurveysScreen
    | ELearningScreen
    | ProfileScreen(user: User)
    | PlaceholderScreen

  /** `renderContent`. Results and profile are restricted: without a user they show the
      sign-in form. Views without a case of their own fall to the placeholder. */
  function RenderContent(view: AppView, user: Option<User>): (s: Screen)
    ensures (view == RESULTS || view == PROFILE) && user.None? ==> s == LoginScreen
    ensures view == RESULTS && user.Some? ==> s == ResultsScreen(user.value)
    ensures view == PROFILE && user.Some? ==> s == ProfileScreen(user.value)
    ensures (s.ResultsScreen? || s.ProfileScreen?) ==> user == Some(s.user)
    ensures s == LoginScreen <==> view == LOGIN || ((view == RESULTS || view == PROFILE) && user.None?)
    ensures s == PlaceholderScreen <==> view == EXAMS || view == ALUMNI || view == RESEARCH
    ensures s == LandingScreen <==> view == LANDING
  {
    if view == LANDING then LandingScreen
    else
      match view
      case LOGIN => LoginScreen
      case FACULTIES => FacultiesScreen
      case DRIVE => DriveScreen
      case EVALUATION => EvaluationScreen
      case STAFF_DIRECTORY => DirectoryScreen
      case COMPLAINTS => ComplaintsScreen
      case RESULTS => if user.Some? then ResultsScreen(user.value) else LoginScreen
      case SERVICES => ServicesScreen
      case DASHBOARD => DashboardScreen(user)
      case SURVEYS => SurveysScreen
      case ELEARNING => ELearningScreen
      case PROFILE => if user.Some? then ProfileScreen(user.value) else LoginScreen
      case _ => PlaceholderScreen
  }

  /** The whole page: the landing screen stands alone, every other view sits inside the
      layout (sidebar, header, footer) with that view highlighted. */
  datatype Page = FullScreen(screen: Screen) | InLayout(active: AppView, content: Screen)

  function Render(view: AppView, user: Option<User>): (p: Page)
    ensures p.FullScreen? <==> view == LANDING
    ensures p.FullScreen? ==> p.screen == LandingScreen
    ensures p.InLayout? ==> p.active == view && p.content == RenderContent(view, user)
    ensures p.InLayout? ==> p.content != LandingScreen
  {
    if view == LANDING then FullScreen(LandingScreen) else InLayout(view, RenderContent(view, user))
  }

  /** The application's state. */
  class AppState {
    var view: AppView
    var user: Option<User>
    var lang: Language

    /** The application opens on the landing page, signed out, in Arabic. */
    constructor ()
      ensures view == LANDING && user == None && lang == Ar
      ensures CurrentPage() == FullScreen(LandingScreen)
    {
      view := LANDING;
      user := None;
      lang := Ar;
    }

    function CurrentPage(): Page
      reads this
    {
      Render(view, user)
    }

    /** `handleLogin`: remember the user and go to the dashboard. */
    method HandleLogin(newUser: User)
      modifies this
      ensures user == Some(newUser) && view == DASHBOARD && lang == old(lang)
      ensures CurrentPage() == InLayout(DASHBOARD, DashboardScreen(Some(newUser)))
    {
      user := Some(newUser);
      view := DASHBOARD;
    }

    /** `handleLogout`: forget the user and go back to the landing page. */
    method HandleLogout()
      modifies this
      ensures user == None && view == LANDING && lang == old(lang)
      ensures CurrentPage() == FullScreen(LandingScreen)
    {
      user := None;
      view := LANDING;
    }

    /** The layout's language button. */
    method ToggleLang()
      modifies this
      ensures lang == Toggled(old(lang))
      ensures view == old(view) && user == old(user)
    {
      lang := Toggled(lang);
    }

    /** `setView`, handed to the landing page, the layout and the dashboard. */
    method SetView(v: AppView)
      modifies this
      ensures view == v && user == old(user) && lang == old(lang)
    {
      view := v;
    }

    /** Apply what a page or the layout asked for. Opening an external link leaves the
        application as it is. */
    method Dispatch(e: Effect)
      modifies this
      ensures e.NoEffect? || e.OpenUrl? ==> view == old(view) && user == old(user) && lang == old(lang)
      ensures e.ChangeView? ==> view == e.view && user == old(user) && lang == old(lang)
      ensures e.Logout? ==> view == LANDING && user == None && lang == old(lang)
      ensures e.ToggleLanguage? ==> lang == Toggled(old(lang)) && view == old(view) && user == old(user)
      ensures e.SignIn? ==> view == DASHBOARD && user == Some(e.user) && lang == old(lang)
    {
      match e
      case NoEffect =>
      case OpenUrl(_) =>
      case ChangeView(v) => SetView(v);
      case Logout => HandleLogout();
      case ToggleLanguage => ToggleLang();
      case SignIn(u) => HandleLogin(u);
    }

    /* The layout's controls as the application wires them: the layout is on screen on every
       view but the landing page, and each request it makes is applied by `Dispatch`. A click
       on a control outside the profile container first fires the document mousedown
       listener with the container mounted, which closes the profile menu. */

    /** The sidebar's seal takes the student back to the landing page, signed in or not. */
    method SealClicked(layout: Layout.LayoutState)
      requires view != LANDING
      modifies this, layout
      ensures view == LANDING && user == old(user) && lang == old(lang)
      ensures CurrentPage() == FullScreen(LandingScreen)
      ensures !layout.isProfileOpen && layout.isSidebarOpen == old(layout.isSidebarOpen)
    {
      layout.MouseDown(true, false);
      var e := layout.ClickSeal();
      Dispatch(e);
    }

    /** The menu's sign-out button, reachable only while the menu is shown to a signed-in
        user, signs out and shows the landing page, where the menu is no longer visible. */
    method LogoutClicked(layout: Layout.LayoutState)
      requires view != LANDING && Layout.DropdownVisible(layout.isProfileOpen, user)
      modifies this
      ensures user == None && view == LANDING && lang == old(lang)
      ensures CurrentPage() == FullScreen(LandingScreen)
      ensures !Layout.DropdownVisible(layout.isProfileOpen, user)
    {
      var e := layout.ClickLogout(user);
      Dispatch(e);
    }

    /** The header's language button switches the language of the whole application and
        stays on the same view, for the same user; the press closes the profile menu. */
    method LanguageClicked(layout: Layout.LayoutState)
      requires view != LANDING
      modifies this, layout
      ensures lang == Toggled(old(lang)) && lang != old(lang)
      ensures view == old(view) && user == old(user)
      ensures CurrentPage() == old(CurrentPage())
      ensures !layout.isProfileOpen && layout.isSidebarOpen == old(layout.isSidebarOpen)
    {
      layout.MouseDown(true, false);
      var e := layout.ClickLanguage();
      Dispatch(e);
    }

    /** A sidebar button opens its view, which the sidebar then highlights, and closes the
        drawer; the press closes the profile menu. */
    method NavItemClicked(layout: Layout.LayoutState, item: Layout.NavItem)
      requires view != LANDING && item in layout.navItems
      modifies this, layout
      ensures view == item.id && Layout.IsHighlighted(view, item)
      ensures user == old(user) && lang == old(lang)
      ensures !layout.isSidebarOpen && !layout.isProfileOpen
    {
      layout.MouseDown(true, false);
      var e := layout.ClickNavItem(item);
      Dispatch(e);
    }

    /** A profile-menu entry closes the menu; the profile entry opens the signed-in user's
        profile, and the other two entries leave the view as it was. */
    method ProfileEntryClicked(layout: Layout.LayoutState, entry: Layout.ProfileEntry)
      requires view != LANDING && Layout.DropdownVisible(layout.isProfileOpen, user)
      modifies this, layout
      ensures entry == Layout.ProfileItem ==> view == PROFILE && user.Some? && CurrentPage() == InLayout(PROFILE, ProfileScreen(user.value))
      ensures entry != Layout.ProfileItem ==> view == old(view)
      ensures user == old(user) && lang == old(lang)
      ensures !Layout.DropdownVisible(layout.isProfileOpen, user)
      ensures layout.isSidebarOpen == old(layout.isSidebarOpen)
    {
      var e := layout.ClickProfileEntry(user, entry);
      Dispatch(e);
    }
  }
}
