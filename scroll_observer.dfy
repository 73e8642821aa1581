/** Section tracking (`useScrollObserver`, `useSectionObserver`) and scroll direction
    (`useScrollDirection`). Intersection geometry is outside the model: the observer's
    callback receives its entries as input. */
module ScrollObserver {
  import opened Wrappers
  import opened AppContext

  /** A DOM element: an identity and its `data-section` attribute (`null` when absent). */
  datatype Element = Element(node: nat, dataSection: Option<string>)

  datatype Entry = Entry(target: Element, isIntersecting: bool)

  datatype Options = Options(threshold: Option<real>, rootMargin: Option<string>)

  const DefaultThreshold: real := 0.0
  const DefaultRootMargin: string := "-10% 0px -80% 0px"

  /** An entry moves the active section when it intersects and names a section; an empty
      attribute is falsy and names none. */
  predicate Qualifies(e: Entry)
  {
    e.isIntersecting && e.target.dataSection.Some? && e.target.dataSection.value != ""
  }

  /** The section named by the last qualifying entry, if any. */
  function LastQualifying(entries: seq<Entry>): (r: Option<string>)
    ensures r.None? <==> forall i :: 0 <= i < |entries| ==> !Qualifies(entries[i])
    ensures r.Some? ==> exists i :: 0 <= i < |entries| && Qualifies(entries[i])
                          && entries[i].target.dataSection.value == r.value
                          && forall j :: i < j < |entries| ==> !Qualifies(entries[j])
  {
    if entries == [] then None
    else
      var last := entries[|entries| - 1];
      if Qualifies(last) then
        Some(last.target.dataSection.value)
      else
        var r := LastQualifying(entries[..|entries| - 1]);
        assert forall i :: 0 <= i < |entries| - 1 ==> entries[..|entries| - 1][i] == entries[i];
        r
  }

  class Observers {
    const app: App
    const threshold: real
    const rootMargin: string
    /** `observerRef.current`, by identity. */
    var current: Option<nat>
    /** Observers created and not yet disconnected. */
    var live: set<nat>
    /** The elements the current observer watches. */
    var watched: seq<Element>
    var nextObserver: nat

    ghost predicate Valid()
      reads this
    {
      live == (if current.Some? then {current.value} else {})
      && (current.Some? ==> current.value < nextObserver)
    }

    /** `useScrollObserver(options)`: missing options take their defaults. */
    constructor (app: App, options: Options)
      ensures Valid() && this.app == app
      ensures threshold == options.threshold.GetOr(DefaultThreshold)
      ensures rootMargin == options.rootMargin.GetOr(DefaultRootMargin)
      ensures current == None && live == {} && watched == []
    {
      this.app := app;
      threshold := options.threshold.GetOr(DefaultThreshold);
      rootMargin := options.rootMargin.GetOr(DefaultRootMargin);
      current := None;
      live := {};
      watched := [];
      nextObserver := 0;
    }

    /** `observe(elements)`: the previous observer is disconnected first, so one observer
        at most is live, and it watches every element given. */
    method Observe(elements: seq<Element>)
      requires Valid()
      modifies this`current, this`live, this`watched, this`nextObserver
      ensures Valid()
      ensures current == Some(old(nextObserver)) && live == {old(nextObserver)}
      ensures old(current).Some? ==> old(current).value !in live
      ensures watched == elements
    {
      if current.Some? {
        live := live - {current.value};
      }
      var id := nextObserver;
      nextObserver := nextObserver + 1;
      current := Some(id);
      live := live + {id};
      watched := [];
      var i := 0;
      while i < |elements|
        invariant 0 <= i <= |elements|
        invariant watched == elements[..i]
        invariant current == Some(id) && live == {id} && nextObserver == id + 1
      {
        watched := watched + [elements[i]];
        i := i + 1;
      }
    }

    /** The live observer's callback on a batch of entries: a last-writer-wins pass over
        them, in order. */
    method Deliver(entries: seq<Entry>)
      requires Valid() && current.Some?
      modifies app`activeSection
      ensures app.activeSection == LastQualifying(entries).GetOr(old(app.activeSection))
    {
      var i := 0;
      while i < |entries|
        invariant 0 <= i <= |entries|
        invariant app.activeSection == LastQualifying(entries[..i]).GetOr(old(app.activeSection))
      {
        var e := entries[i];
        assert entries[..i + 1][..i] == entries[..i];
        if e.isIntersecting {
          var sectionId := e.target.dataSection;
          if sectionId.Some? && sectionId.value != "" {
            app.SetActiveSection(sectionId.value);
          }
        }
        i := i + 1;
      }
      assert entries[..i] == entries;
    }

    /** `useSectionObserver`'s timeout, given what `[data-section]` selects: it observes
        only when something is selected. */
    method SectionTimeoutFired(sections: seq<Element>)
      requires Valid()
      modifies this`current, this`live, this`watched, this`nextObserver
      ensures Valid()
      ensures sections == [] ==> current == old(current) && live == old(live) && watched == old(watched)
      ensures sections != [] ==> live == {old(nextObserver)} && watched == sections
    {
      if |sections| > 0 {
        Observe(sections);
      }
    }

    /** Unmount: the current observer is disconnected. */
    method Teardown()
      requires Valid()
      modifies this`live
      ensures live == {}
    {
      if current.Some? {
        live := live - {current.value};
      }
    }
  }

  /** Two entries qualify, the later wins; an entry without data-section is skipped. */
  method FoldScenario() {
    var app := new App();
    var o := new Observers(app, Options(None, None));
    assert o.rootMargin == "-10% 0px -80% 0px";
    o.Observe([Element(1, Some("projects")), Element(2, Some("blogs"))]);
    var es := [Entry(Element(1, Some("projects")), true), Entry(Element(2, Some("blogs")), true),
               Entry(Element(3, None), true), Entry(Element(4, Some("album")), false)];
    o.Deliver(es);
    assert Qualifies(es[1]) && !Qualifies(es[2]) && !Qualifies(es[3]);
    assert app.activeSection == "blogs";
  }

  // ---------------------------------------------------------------- scroll direction

  datatype Direction = Up | Down

  class ScrollDirection {
    var lastScrollY: real
    var direction: Direction

    constructor ()
      ensures lastScrollY == 0.0 && direction == Down
    {
      lastScrollY := 0.0;
      direction := Down;
    }

    /** A `scroll` event at `scrollY`: down only for a strict increase. */
    method HandleScroll(scrollY: real)
      modifies this
      ensures direction == (if scrollY > old(lastScrollY) then Down else Up)
      ensures lastScrollY == scrollY
    {
      direction := if scrollY > lastScrollY then Down else Up;
      lastScrollY := scrollY;
    }
  }

  /** A repeated position reads as up. */
  method DirectionScenario() {
    var d := new ScrollDirection();
    d.HandleScroll(120.0);
    assert d.direction == Down;
    d.HandleScroll(120.0);
    assert d.direction == Up;
  }
}
