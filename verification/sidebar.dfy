/** The sidebar's shared store (a zustand store with two fields and two setters). */
module SidebarStore {

  /** The store's data: whether the sidebar is open and which link is active. */
  datatype SidebarState = SidebarState(open: bool, activeLink: string)

  const Initial := SidebarState(false, "Dashboard")

  /** `toggleSidebar`: `set(state => ({ open: !state.open }))`. */
  function Toggled(s: SidebarState): (t: SidebarState) {
    s.(open := !s.open)
  }

  /** `setActiveLink(link)`: `set(() => ({ activeLink: link }))`. */
  function WithActiveLink(s: SidebarState, link: string): (t: SidebarState) {
    s.(activeLink := link)
  }

  /** Toggling flips `open`, keeps `activeLink`, and a second toggle restores the state. */
  lemma ToggleInvolution(s: SidebarState)
    ensures Toggled(s).open == !s.open && Toggled(s).activeLink == s.activeLink
    ensures Toggled(Toggled(s)) == s
  {
  }

  /** Setting the active link keeps `open`, and setting the same link twice is the same as
      setting it once. */
  lemma SetActiveLinkIdempotent(s: SidebarState, link: string)
    ensures WithActiveLink(s, link).activeLink == link && WithActiveLink(s, link).open == s.open
    ensures WithActiveLink(WithActiveLink(s, link), link) == WithActiveLink(s, link)
  {
  }

  class Store {
    var open: bool
    var activeLink: string

    function State(): (st: SidebarState)
      reads this
    {
      SidebarState(open, activeLink)
    }

    constructor ()
      ensures State() == Initial
    {
      open := false;
      activeLink := "Dashboard";
    }

    method ToggleSidebar()
      modifies this
      ensures State() == Toggled(old(State()))
    {
      open := !open;
    }

    method SetActiveLink(link: string)
      modifies this
      ensures State() == WithActiveLink(old(State()), link)
    {
      activeLink := link;
    }
  }
}

/** The lecturer dashboard's side navigation bar: the mobile test, the link table, which
    link is highlighted, the overlay, and what a click on a link does. */
module LecturerSideNav {
  import opened SidebarStore

  datatype Link = Link(name: string, path: string)

  const MobileBreakpoint := 768

  const SideBarLinks := [
    Link("Dashboard", "/dashboard/lecturer"),
    Link("Courses", "/dashboard/lecturer/courses"),
    Link("Assignments", "/dashboard/lecturer/assignments"),
    Link("Settings", "#")
  ]

  /** `checkIfMobile`: `window.innerWidth < 768`. */
  predicate IsMobileWidth(innerWidth: int) {
    innerWidth < MobileBreakpoint
  }

  /** A link is drawn in bold when the current path equals its path exactly. */
  predicate IsHighlighted(pathname: string, link: Link) {
    pathname == link.path
  }

  /** The dark overlay is rendered on mobile while the sidebar is open. */
  predicate OverlayShown(isMobile: bool, s: SidebarState) {
    isMobile && s.open
  }

  /** The store after `handleLinkClicked`: on mobile an open sidebar is toggled. */
  function AfterLinkClick(s: SidebarState, isMobile: bool): (t: SidebarState) {
    if isMobile && s.open then Toggled(s) else s
  }

  /** After a click on a link, the sidebar is open exactly when it was open on a desktop;
      the active link is never touched by this component. */
  lemma {:induction false} LinkClickClosesOnMobile(s: SidebarState, isMobile: bool)
    ensures AfterLinkClick(s, isMobile).open == (s.open && !isMobile)
    ensures AfterLinkClick(s, isMobile).activeLink == s.activeLink
    ensures !OverlayShown(isMobile, AfterLinkClick(s, isMobile))
  {
    if isMobile && s.open {
      ToggleInvolution(s);
    }
  }

  /** The link paths are pairwise distinct, so at most one link is highlighted at a time,
      and a nested route under a link's path highlights nothing. */
  lemma {:induction false} AtMostOneHighlighted(pathname: string, i: nat, j: nat)
    requires i < |SideBarLinks| && j < |SideBarLinks|
    requires IsHighlighted(pathname, SideBarLinks[i]) && IsHighlighted(pathname, SideBarLinks[j])
    ensures i == j
  {
    assert SideBarLinks[i].path == SideBarLinks[j].path;
    assert forall a, b | 0 <= a < b < |SideBarLinks| :: SideBarLinks[a].path != SideBarLinks[b].path by {
      assert "/dashboard/lecturer"[1] != "#"[0];
      assert |"/dashboard/lecturer"| != |"/dashboard/lecturer/courses"|;
      assert |"/dashboard/lecturer"| != |"/dashboard/lecturer/assignments"|;
      assert "/dashboard/lecturer/courses"[20] != "/dashboard/lecturer/assignments"[20];
    }
  }

  lemma NestedRouteHighlightsNothing()
    ensures forall i | 0 <= i < |SideBarLinks| :: !IsHighlighted("/dashboard/lecturer/courses/1", SideBarLinks[i])
  {
    assert |"/dashboard/lecturer/courses/1"| == 29;
  }

  class SideNav {
    const store: Store
    var isMobile: bool

    constructor (store: Store)
      ensures this.store == store && !isMobile
    {
      this.store := store;
      isMobile := false;
    }

    /** `checkIfMobile`, run on mount and on every resize. */
    method CheckIfMobile(innerWidth: int)
      modifies this
      ensures isMobile == IsMobileWidth(innerWidth)
    {
      isMobile := innerWidth < MobileBreakpoint;
    }

    function OverlayVisible(): (shown: bool)
      reads this, store
    {
      OverlayShown(isMobile, store.State())
    }

    /** `handleLinkClicked(link)`: navigate to the link's path, then close the sidebar when
        on mobile and open. Returns the path pushed to the router. */
    method HandleLinkClicked(link: Link) returns (target: string)
      modifies store
      ensures target == link.path
      ensures store.State() == AfterLinkClick(old(store.State()), isMobile)
    {
      target := link.path;
      if isMobile && store.open {
        store.ToggleSidebar();
      }
    }

    /** A click on the overlay, which exists only while it is shown, toggles the sidebar
        and so closes it. */
    method ClickOverlay()
      requires OverlayVisible()
      modifies store
      ensures store.State() == Toggled(old(store.State())) && !store.open
    {
      store.ToggleSidebar();
    }
  }
}
