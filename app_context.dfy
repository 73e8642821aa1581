/** The app-wide state container (`AppProvider`): the custom cursor record, the active
    section, the toast list with its auto-dismiss timers, the navbar flag and the two
    device flags. */
module AppContext {
  import opened Wrappers
  import opened Seqs

  datatype CursorType = Default | Hover | Button | Link | TextCursor | Hidden

  datatype CursorState = CursorState(x: real, y: real, kind: CursorType, text: Option<string>,
                                     isVisible: bool)

  const DefaultCursor := CursorState(0.0, 0.0, Default, None, false)

  datatype Accent = Purple | Cyan | Pink

  datatype SectionMeta = SectionMeta(id: string, title: string, accent: Accent, navLabel: string)

  /** The page's sections, in navigation order. */
  const DefaultSections: seq<SectionMeta> := [
    SectionMeta("home", "Home", Cyan, "Home"),
    SectionMeta("projects", "Projects", Pink, "Projects"),
    SectionMeta("blogs", "Writing", Cyan, "Writing"),
    SectionMeta("album", "Album", Pink, "Album"),
    SectionMeta("contact", "Contact", Purple, "Contact")
  ]

  function SectionIds(sections: seq<SectionMeta>): (r: seq<string>)
    ensures |r| == |sections|
    ensures forall i :: 0 <= i < |r| ==> r[i] == sections[i].id
  {
    if sections == [] then [] else [sections[0].id] + SectionIds(sections[1..])
  }

  /** The section ids are home, projects, blogs, album, contact, in that order, and no id
      occurs twice. */
  lemma DefaultSectionIds()
    ensures SectionIds(DefaultSections) == ["home", "projects", "blogs", "album", "contact"]
    ensures forall i, j :: 0 <= i < j < |DefaultSections| ==> DefaultSections[i].id != DefaultSections[j].id
  {
  }

  datatype ToastKind = SuccessToast | ErrorToast | InfoToast

  datatype Toast = Toast(id: string, message: string, kind: ToastKind, durationMs: int)

  const DefaultToastMs: int := 3000

  /** `prev.filter(t => t.id !== id)`. */
  function WithoutId(toasts: seq<Toast>, id: string): (r: seq<Toast>)
    ensures forall t :: t in r <==> t in toasts && t.id != id
    ensures forall t: Toast :: t.id != id ==> multiset(r)[t] == multiset(toasts)[t]
    ensures IsSubsequence(r, toasts)
  {
    FilterCounts(toasts, (t: Toast) => t.id != id);
    FilterSubsequence(toasts, (t: Toast) => t.id != id);
    Filter(toasts, (t: Toast) => t.id != id)
  }

  /** Dismissing an id no toast carries leaves the list as it is. */
  lemma WithoutAbsentId(toasts: seq<Toast>, id: string)
    requires forall i :: 0 <= i < |toasts| ==> toasts[i].id != id
    ensures WithoutId(toasts, id) == toasts
  {
    FilterAll(toasts, (t: Toast) => t.id != id);
  }

  /** A toast shown with a fresh id is removed again by dismissing that id, and the
      earlier toasts come back in their order. */
  lemma DismissUndoesShow(toasts: seq<Toast>, t: Toast)
    requires forall i :: 0 <= i < |toasts| ==> toasts[i].id != t.id
    ensures WithoutId(toasts + [t], t.id) == toasts
  {
    FilterAll(toasts, (u: Toast) => u.id != t.id);
    FilterAppend(toasts, [t], (u: Toast) => u.id != t.id);
  }

  class App {
    var cursor: CursorState
    var activeSection: string
    var toasts: seq<Toast>
    /** Ids of auto-dismiss timeouts that have not fired yet; they are never cancelled. */
    var pendingDismissals: multiset<string>
    var isNavExpanded: bool
    var prefersReducedMotion: bool
    var isTouchDevice: bool
    /** The one-shot `touchstart` listener is still attached. */
    var touchListener: bool
    /** The provider's mount effects have run; they run once per provider. */
    var mounted: bool
    const sections: seq<SectionMeta>

    constructor ()
      ensures cursor == DefaultCursor && activeSection == "home"
      ensures toasts == [] && pendingDismissals == multiset{}
      ensures !isNavExpanded && !prefersReducedMotion && !isTouchDevice && !touchListener
      ensures !mounted && sections == DefaultSections
      ensures TouchValid()
    {
      cursor := DefaultCursor;
      activeSection := "home";
      toasts := [];
      pendingDismissals := multiset{};
      isNavExpanded := false;
      prefersReducedMotion := false;
      isTouchDevice := false;
      touchListener := false;
      mounted := false;
      sections := DefaultSections;
    }

    /** Before the mount effects run nothing has detected touch and no listener exists;
        the touch flag, once set, is never cleared. */
    predicate TouchValid()
      reads this`mounted, this`isTouchDevice, this`touchListener
    {
      !mounted ==> !isTouchDevice && !touchListener
    }

    /** The mount effects (their dependency lists are empty, so they run once): the
        reduced-motion query and the touch check, after which the one-shot `touchstart`
        listener is attached. */
    method Mount(reducedMotionMatches: bool, touchCapable: bool)
      requires TouchValid() && !mounted
      modifies this`prefersReducedMotion, this`isTouchDevice, this`touchListener, this`mounted
      ensures TouchValid() && mounted
      ensures prefersReducedMotion == reducedMotionMatches
      ensures isTouchDevice == touchCapable
      ensures old(isTouchDevice) ==> isTouchDevice
      ensures touchListener
    {
      prefersReducedMotion := reducedMotionMatches;
      isTouchDevice := touchCapable;
      touchListener := true;
      mounted := true;
    }

    /** The media query's `change` event. */
    method ReducedMotionChanged(matches: bool)
      modifies this`prefersReducedMotion
      ensures prefersReducedMotion == matches
    {
      prefersReducedMotion := matches;
    }

    /** A touch: the first one after mount sets the flag and detaches the listener. */
    method TouchStart()
      requires TouchValid()
      modifies this`isTouchDevice, this`touchListener
      ensures TouchValid()
      ensures isTouchDevice == (old(isTouchDevice) || old(touchListener))
      ensures !touchListener
      ensures old(isTouchDevice) ==> isTouchDevice
    {
      if touchListener {
        isTouchDevice := true;
        touchListener := false;
      }
    }

    method SetCursorType(kind: CursorType, text: Option<string>)
      modifies this`cursor
      ensures cursor == old(cursor).(kind := kind, text := text)
    {
      cursor := cursor.(kind := kind, text := text);
    }

    method UpdateCursorPosition(x: real, y: real)
      modifies this`cursor
      ensures cursor == old(cursor).(x := x, y := y, isVisible := true)
    {
      cursor := cursor.(x := x, y := y, isVisible := true);
    }

    method SetActiveSection(id: string)
      modifies this`activeSection
      ensures activeSection == id
    {
      activeSection := id;
    }

    method SetNavExpanded(expanded: bool)
      modifies this`isNavExpanded
      ensures isNavExpanded == expanded
    {
      isNavExpanded := expanded;
    }

    /** `showToast(message, type?, duration?)`; `id` is the generated identifier (from the
        clock and a random suffix). The new toast goes last, and an auto-dismiss is
        scheduled only for a positive duration. */
    method ShowToast(id: string, message: string, kind: Option<ToastKind>, durationMs: Option<int>)
      modifies this`toasts, this`pendingDismissals
      ensures toasts == old(toasts) + [Toast(id, message, kind.GetOr(InfoToast), durationMs.GetOr(DefaultToastMs))]
      ensures pendingDismissals == old(pendingDismissals)
                + (if durationMs.GetOr(DefaultToastMs) > 0 then multiset{id} else multiset{})
    {
      var d := if durationMs.Some? then durationMs.value else DefaultToastMs;
      var k := if kind.Some? then kind.value else InfoToast;
      toasts := toasts + [Toast(id, message, k, d)];
      if d > 0 {
        pendingDismissals := pendingDismissals + multiset{id};
      }
    }

    method DismissToast(id: string)
      modifies this`toasts
      ensures toasts == WithoutId(old(toasts), id)
    {
      toasts := WithoutId(toasts, id);
    }

    /** An auto-dismiss timeout fires. */
    method DismissTimerFired(id: string)
      requires id in pendingDismissals
      modifies this`toasts, this`pendingDismissals
      ensures toasts == WithoutId(old(toasts), id)
      ensures pendingDismissals == old(pendingDismissals) - multiset{id}
    {
      toasts := WithoutId(toasts, id);
      pendingDismissals := pendingDismissals - multiset{id};
    }
  }

  /** A touch before mount is ignored; the first touch after it is remembered. */
  method TouchScenario() {
    var app := new App();
    app.TouchStart();
    assert !app.isTouchDevice;
    app.Mount(false, false);
    app.TouchStart();
    assert app.isTouchDevice && !app.touchListener;
    app.TouchStart();
    assert app.isTouchDevice;
  }

  /** A default toast is an info toast with a 3000 ms timer; `duration` 0 keeps it until
      it is dismissed by hand. */
  method ToastScenario() {
    var app := new App();
    app.ShowToast("a", "Saved", None, None);
    assert app.toasts == [Toast("a", "Saved", InfoToast, 3000)];
    app.ShowToast("b", "Pinned", Some(SuccessToast), Some(0));
    assert app.pendingDismissals == multiset{"a"};
    app.DismissTimerFired("a");
    DismissUndoesShow([], Toast("a", "Saved", InfoToast, 3000));
    assert app.toasts == WithoutId([Toast("a", "Saved", InfoToast, 3000)] + [Toast("b", "Pinned", SuccessToast, 0)], "a");
  }
}
