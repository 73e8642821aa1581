/** The navigation island (`DynamicIsland`): which section it names and highlights, when
    it is expanded, and what its handlers change. The cursor-proximity geometry that sets
    `isNear` is outside the model; `isNear` arrives as an input. */
module DynamicIsland {
  import opened Wrappers
  import opened Seqs
  import opened Text
  import opened AppContext
  import CustomCursor

  /** Pixels of scroll after which the island counts as scrolled. */
  const ScrolledThreshold: real := 50.0

  predicate IsBlogPage(pathname: string)
  {
    StartsWith(pathname, "/blog/")
  }

  /** On an article page the home section reads as the blog section. */
  function EffectiveActiveSection(isBlogPage: bool, activeSection: string): (r: string)
    ensures isBlogPage && activeSection == "home" ==> r == "blogs"
    ensures !(isBlogPage && activeSection == "home") ==> r == activeSection
    ensures r != "home" || activeSection == "home"
  {
    if isBlogPage && activeSection == "home" then "blogs" else activeSection
  }

  /** `sections.find(s => s.id === activeSection) || sections[0]`: the first section with
      the active id, else the first section; `None` only for an empty list, where the
      source's `sections[0]` is undefined. */
  function CurrentSection(sections: seq<SectionMeta>, activeSection: string): (r: Option<SectionMeta>)
    ensures r.None? <==> sections == []
    ensures r.Some? ==> r.value in sections
    ensures (exists i :: 0 <= i < |sections| && sections[i].id == activeSection) ==>
              exists i :: 0 <= i < |sections| && r == Some(sections[i]) && sections[i].id == activeSection
                          && forall j :: 0 <= j < i ==> sections[j].id != activeSection
    ensures (forall i :: 0 <= i < |sections| ==> sections[i].id != activeSection) && sections != [] ==>
              r == Some(sections[0])
  {
    match Find(sections, (s: SectionMeta) => s.id == activeSection)
    case Some(s) => Some(s)
    case None => if sections == [] then None else Some(sections[0])
  }

  datatype NavState = Expanded | Collapsed

  /** `getNavState`. */
  function GetNavState(isNavExpanded: bool, isNear: bool): (r: NavState)
    ensures r == Expanded <==> isNavExpanded || isNear
  {
    if isNavExpanded then Expanded else if isNear then Expanded else Collapsed
  }

  /** The collapsed content is rendered exactly when the nav state is collapsed. */
  lemma CollapsedContentMatchesState(isNavExpanded: bool, isNear: bool)
    ensures !(isNavExpanded || isNear) <==> GetNavState(isNavExpanded, isNear) == Collapsed
  {
  }

  /** The `isActive` of the link to section `id`. */
  predicate NavLinkActive(pathname: string, activeSection: string, id: string)
  {
    EffectiveActiveSection(IsBlogPage(pathname), activeSection) == id
    || (IsBlogPage(pathname) && id == "blogs")
  }

  /** Away from article pages a link is lit exactly for the active section; on an article
      page the blog link is always lit and the home link never is. */
  lemma NavLinkActiveCases(pathname: string, activeSection: string, id: string)
    ensures !IsBlogPage(pathname) ==> (NavLinkActive(pathname, activeSection, id) <==> id == activeSection)
    ensures IsBlogPage(pathname) ==> NavLinkActive(pathname, activeSection, "blogs")
    ensures IsBlogPage(pathname) ==> !NavLinkActive(pathname, activeSection, "home")
  {
  }

  /** The collapsed label: "Blogs" on article pages, else the current section's label.
      `None` stands for the TypeError that reading `navLabel` of an undefined section
      throws with an empty list; the app's own list is never empty. */
  function CollapsedLabel(pathname: string, sections: seq<SectionMeta>, activeSection: string): (r: Option<string>)
    ensures IsBlogPage(pathname) ==> r == Some("Blogs")
    ensures !IsBlogPage(pathname) && sections != [] ==>
              r == Some(CurrentSection(sections, activeSection).value.navLabel)
    ensures !IsBlogPage(pathname) && sections == [] ==> r.None?
  {
    if IsBlogPage(pathname) then Some("Blogs")
    else match CurrentSection(sections, activeSection)
      case Some(s) => Some(s.navLabel)
      case None => None
  }

  /** With the app's own sections, the island always names a section, and for a known id
      it is that section. */
  lemma DefaultSectionsLabel(activeSection: string)
    ensures CurrentSection(DefaultSections, activeSection).Some?
    ensures CurrentSection(DefaultSections, "album") == Some(DefaultSections[3])
  {
    assert DefaultSections[3].id == "album";
  }

  function IsScrolled(scrollY: real): (r: bool)
    ensures r <==> scrollY > 50.0
  {
    scrollY > ScrolledThreshold
  }

  class Island {
    const app: App
    var pathname: string
    var isNear: bool
    var scrolled: bool
    /** Section ids scrolled into view, in order. */
    var scrolledTo: seq<string>
    /** Section ids waiting for the 100 ms timeout that follows a navigation home. */
    var pendingScrolls: seq<string>

    constructor (app: App, pathname: string)
      ensures this.app == app && this.pathname == pathname
      ensures !isNear && !scrolled && scrolledTo == [] && pendingScrolls == []
    {
      this.app := app;
      this.pathname := pathname;
      isNear := false;
      scrolled := false;
      scrolledTo := [];
      pendingScrolls := [];
    }

    method HandleScroll(scrollY: real)
      modifies this`scrolled
      ensures scrolled <==> scrollY > 50.0
    {
      scrolled := scrollY > ScrolledThreshold;
    }

    /** The proximity effect's verdict. */
    method ProximityChanged(near: bool)
      modifies this`isNear
      ensures isNear == near
    {
      isNear := near;
    }

    method HandleToggle()
      modifies app`isNavExpanded
      ensures app.isNavExpanded == !old(app.isNavExpanded)
    {
      app.SetNavExpanded(!app.isNavExpanded);
    }

    /** A click on the island itself: the toggle is attached only while collapsed, so a
        click expands a collapsed island and leaves an expanded one as it is. */
    method IslandClick()
      modifies app`isNavExpanded
      ensures app.isNavExpanded
    {
      if !app.isNavExpanded {
        HandleToggle();
      }
    }

    /** The island's handlers from `useCursorHandlers('button')`. */
    function IslandCursorHandlers(): (r: CustomCursor.Handlers)
      reads app
      ensures r.NoHandlers? <==> app.isTouchDevice
      ensures r.Handlers? ==> r.onEnter == CustomCursor.CursorRequest(Button, None)
                              && r.onLeave == CustomCursor.CursorRequest(Default, None)
    {
      CustomCursor.UseCursorHandlers(Some(Button), None, app.isTouchDevice)
    }

    /** The pointer entering the island, as written: the spread cursor handlers come after
        the expanding `onMouseEnter`, so off touch devices they replace it and only the
        button cursor is set; on touch devices the spread is empty and the island expands. */
    method PointerEnter()
      modifies app`isNavExpanded, app`cursor
      ensures app.isTouchDevice ==> app.isNavExpanded && app.cursor == old(app.cursor)
      ensures !app.isTouchDevice ==>
                app.isNavExpanded == old(app.isNavExpanded) &&
                app.cursor == old(app.cursor).(kind := Button, text := None)
    {
      if app.isTouchDevice {
        app.SetNavExpanded(true);
      } else {
        CustomCursor.MouseEnter(app, IslandCursorHandlers());
      }
    }

    /** The pointer leaving the island, as written: off touch devices the spread handler
        replaces the collapsing one and only restores the default cursor. */
    method PointerLeave()
      modifies app`isNavExpanded, app`cursor
      ensures app.isTouchDevice ==> !app.isNavExpanded && app.cursor == old(app.cursor)
      ensures !app.isTouchDevice ==>
                app.isNavExpanded == old(app.isNavExpanded) &&
                app.cursor == old(app.cursor).(kind := Default, text := None)
    {
      if app.isTouchDevice {
        app.SetNavExpanded(false);
      } else {
        CustomCursor.MouseLeave(app, IslandCursorHandlers());
      }
    }

    /** The corrected enter handler: it expands the island and also sets the button cursor
        where the cursor handlers exist. */
    method PointerEnterExpanding()
      modifies app`isNavExpanded, app`cursor
      ensures app.isNavExpanded
      ensures app.isTouchDevice ==> app.cursor == old(app.cursor)
      ensures !app.isTouchDevice ==> app.cursor == old(app.cursor).(kind := Button, text := None)
    {
      app.SetNavExpanded(true);
      CustomCursor.MouseEnter(app, IslandCursorHandlers());
    }

    /** The corrected leave handler: it collapses the island and also restores the default
        cursor where the cursor handlers exist. */
    method PointerLeaveCollapsing()
      modifies app`isNavExpanded, app`cursor
      ensures !app.isNavExpanded
      ensures app.isTouchDevice ==> app.cursor == old(app.cursor)
      ensures !app.isTouchDevice ==> app.cursor == old(app.cursor).(kind := Default, text := None)
    {
      app.SetNavExpanded(false);
      CustomCursor.MouseLeave(app, IslandCursorHandlers());
    }

    /** A document click; its listener exists only while expanded. */
    method DocumentClick(insideNav: bool)
      modifies app`isNavExpanded
      ensures app.isNavExpanded == (old(app.isNavExpanded) && insideNav)
    {
      if app.isNavExpanded && !insideNav {
        app.SetNavExpanded(false);
      }
    }

    /** `handleNavClick`: closes the island; off the home page it navigates home and queues
        the scroll for the 100 ms timeout, on it scrolls at once when `present` says the
        document has an element with that id. */
    method HandleNavClick(sectionId: string, present: bool)
      modifies app`isNavExpanded, this`pathname, this`scrolledTo, this`pendingScrolls
      ensures !app.isNavExpanded
      ensures pathname == "/"
      ensures old(pathname) == "/" ==>
                scrolledTo == old(scrolledTo) + (if present then [sectionId] else []) &&
                pendingScrolls == old(pendingScrolls)
      ensures old(pathname) != "/" ==>
                scrolledTo == old(scrolledTo) && pendingScrolls == old(pendingScrolls) + [sectionId]
    {
      app.SetNavExpanded(false);
      if pathname != "/" {
        pathname := "/";
        pendingScrolls := pendingScrolls + [sectionId];
      } else if present {
        scrolledTo := scrolledTo + [sectionId];
      }
    }

    /** A click on a section link (`NavLink.handleClick` on `#id`): the link scrolls to its
        own target when the current document has it, then runs `handleNavClick`, so on the
        home page a present section is scrolled to twice. */
    method NavLinkClick(sectionId: string, present: bool)
      modifies app`isNavExpanded, this`pathname, this`scrolledTo, this`pendingScrolls
      ensures !app.isNavExpanded
      ensures pathname == "/"
      ensures scrolledTo == old(scrolledTo) + (if present then [sectionId] else [])
                            + (if present && old(pathname) == "/" then [sectionId] else [])
      ensures pendingScrolls == old(pendingScrolls) + (if old(pathname) != "/" then [sectionId] else [])
    {
      if present {
        scrolledTo := scrolledTo + [sectionId];
      }
      HandleNavClick(sectionId, present);
    }

    /** The delayed scroll after a navigation home fires; it scrolls only when the home
        page has an element with that id by then. */
    method PendingScrollFired(present: bool)
      requires pendingScrolls != []
      modifies this`scrolledTo, this`pendingScrolls
      ensures scrolledTo == old(scrolledTo) + (if present then [old(pendingScrolls)[0]] else [])
      ensures pendingScrolls == old(pendingScrolls)[1..]
    {
      if present {
        scrolledTo := scrolledTo + [pendingScrolls[0]];
      }
      pendingScrolls := pendingScrolls[1..];
    }

    function NavState(): (r: NavState)
      reads this, app
      ensures r == Collapsed <==> !app.isNavExpanded && !isNear
    {
      GetNavState(app.isNavExpanded, isNear)
    }
  }

  /** On a desktop, as written, hovering over the collapsed island changes only the cursor
      and leaves it collapsed; the corrected handler expands it. */
  method HoverExpandScenario() {
    var app := new App();
    var island := new Island(app, "/");
    island.PointerEnter();
    assert !app.isNavExpanded && app.cursor.kind == Button;
    assert island.NavState() == Collapsed;
    island.PointerLeave();
    assert app.cursor.kind == Default;
    island.PointerEnterExpanding();
    assert app.isNavExpanded && app.cursor.kind == Button;
  }
}
