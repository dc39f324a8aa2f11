/** The layout around every view but the landing page (components/Layout.tsx): a sidebar
    (a drawer on small screens) and a header with the language button and a profile menu. */
module Layout {
  import opened Types
  import opened Effects

  /** An entry of the sidebar's navigation table (the source's `label` and `labelAr`). */
  datatype NavItem = NavItem(id: AppView, caption: string, captionAr: string)

  /** The three entries of the profile menu. */
  datatype ProfileEntry = ProfileItem | SecurityItem | BillingItem

  /** The id each profile-menu entry carries. */
  function EntryId(e: ProfileEntry): string {
    match e
    case ProfileItem => ViewId(PROFILE)
    case SecurityItem => "security"
    case BillingItem => "billing"
  }

  /** What clicking a profile-menu entry asks of the application: only the entry whose id is
      the profile view's navigates, and it navigates there. */
  function EntryEffect(e: ProfileEntry): (eff: Effect)
    ensures eff == NoEffect || eff == ChangeView(PROFILE)
    ensures eff == ChangeView(PROFILE) <==> e == ProfileItem
  {
    if EntryId(e) == ViewId(PROFILE) then ChangeView(PROFILE) else NoEffect
  }

  /** The profile drop-down is rendered only when it is open and someone is signed in. */
  predicate DropdownVisible(isProfileOpen: bool, user: Option<User>) {
    isProfileOpen && user.Some?
  }

  /** A nav button is highlighted exactly when its view is the active one. */
  predicate IsHighlighted(activeView: AppView, item: NavItem) {
    activeView == item.id
  }

  /** The layout's own state: the profile menu and the sidebar drawer. */
  class LayoutState {
    const navItems: seq<NavItem>
    var isProfileOpen: bool
    var isSidebarOpen: bool

    /** Both start closed. */
    constructor (navItems: seq<NavItem>)
      ensures this.navItems == navItems && !isProfileOpen && !isSidebarOpen
    {
      this.navItems := navItems;
      isProfileOpen := false;
      isSidebarOpen := false;
    }

    /** The profile button flips the menu. */
    method ToggleProfile()
      modifies this
      ensures isProfileOpen == !old(isProfileOpen) && isSidebarOpen == old(isSidebarOpen)
    {
      isProfileOpen := !isProfileOpen;
    }

    /** The document-wide mousedown listener: a press while the dropdown container is
        mounted and outside it closes the menu; nothing else changes. */
    method MouseDown(containerMounted: bool, insideContainer: bool)
      modifies this
      ensures containerMounted && !insideContainer ==> !isProfileOpen
      ensures !(containerMounted && !insideContainer) ==> isProfileOpen == old(isProfileOpen)
      ensures isSidebarOpen == old(isSidebarOpen)
    {
      if containerMounted && !insideContainer {
        isProfileOpen := false;
      }
    }

    /** The menu button in the header opens the drawer. */
    method OpenSidebar()
      modifies this
      ensures isSidebarOpen && isProfileOpen == old(isProfileOpen)
    {
      isSidebarOpen := true;
    }

    /** The overlay behind the drawer and the drawer's close button close it. */
    method CloseSidebar()
      modifies this
      ensures !isSidebarOpen && isProfileOpen == old(isProfileOpen)
    {
      isSidebarOpen := false;
    }

    /** A navigation button asks for its view and closes the drawer. */
    method ClickNavItem(item: NavItem) returns (eff: Effect)
      requires item in navItems
      modifies this
      ensures eff == ChangeView(item.id)
      ensures !isSidebarOpen && isProfileOpen == old(isProfileOpen)
    {
      eff := ChangeView(item.id);
      isSidebarOpen := false;
    }

    /** A profile-menu entry closes the menu; only the profile entry also navigates. */
    method ClickProfileEntry(user: Option<User>, e: ProfileEntry) returns (eff: Effect)
      requires DropdownVisible(isProfileOpen, user)
      modifies this
      ensures eff == EntryEffect(e)
      ensures !isProfileOpen && isSidebarOpen == old(isSidebarOpen)
    {
      eff := EntryEffect(e);
      isProfileOpen := false;
    }

    /** The sign-out button in the menu calls `onLogout` and leaves the menu state alone. */
    method ClickLogout(user: Option<User>) returns (eff: Effect)
      requires DropdownVisible(isProfileOpen, user)
      ensures eff == Logout
    {
      eff := Logout;
    }

    /** The university seal in the sidebar goes to the landing page. */
    method ClickSeal() returns (eff: Effect)
      ensures eff == ChangeView(LANDING)
    {
      eff := ChangeView(LANDING);
    }

    /** The language button calls `onToggleLang`. */
    method ClickLanguage() returns (eff: Effect)
      ensures eff == ToggleLanguage
    {
      eff := ToggleLanguage;
    }
  }
}
