/** The project modal (`ProjectModal`): its media carousel over the project's image and
    optional video, the Escape and backdrop close rules, and the body scroll lock held
    while a project is shown. `onClose` is the parent's; the model counts its calls. */
module ProjectModal {
  import opened Wrappers
  import opened Text

  /** The fields of a project card the modal reads. */
  datatype CardProject = CardProject(id: string, title: string, image: string, video: Option<string>)

  predicate HasVideo(p: CardProject)
  {
    p.video.Some? && p.video.value != ""
  }

  /** `mediaItems`: the image, then the video when there is one; nothing without a project. */
  function MediaItems(project: Option<CardProject>): (r: seq<string>)
    ensures project.None? ==> r == []
    ensures project.Some? ==> 1 <= |r| <= 2 && r[0] == project.value.image
    ensures project.Some? ==> (|r| == 2 <==> HasVideo(project.value))
    ensures |r| == 2 ==> r[1] == project.value.video.value
  {
    match project
    case None => []
    case Some(p) => [p.image] + (if HasVideo(p) then [p.video.value] else [])
  }

  /** `media.endsWith('.mp4') || media.endsWith('.webm')`. */
  predicate IsVideo(url: string)
  {
    EndsWith(url, ".mp4") || EndsWith(url, ".webm")
  }

  /** A URL ending in a suffix is its stem followed by that suffix. */
  lemma SplitSuffix(url: string, suffix: string)
    requires EndsWith(url, suffix)
    ensures url == url[..|url| - |suffix|] + suffix
  {
    assert url == url[..|url| - |suffix|] + url[|url| - |suffix|..];
  }

  /** A name followed by a suffix ends in that suffix. */
  lemma AppendedSuffix(name: string, suffix: string)
    ensures EndsWith(name + suffix, suffix)
  {
    assert (name + suffix)[|name|..] == suffix;
  }

  /** A URL is shown as a video exactly when it is some name followed by `.mp4` or `.webm`. */
  lemma IsVideoByExtension(url: string)
    ensures IsVideo(url) <==> exists name: string :: url == name + ".mp4" || url == name + ".webm"
  {
    if EndsWith(url, ".mp4") {
      SplitSuffix(url, ".mp4");
    } else if EndsWith(url, ".webm") {
      SplitSuffix(url, ".webm");
    }
    if exists name: string :: url == name + ".mp4" || url == name + ".webm" {
      var name: string :| url == name + ".mp4" || url == name + ".webm";
      AppendedSuffix(name, if url == name + ".mp4" then ".mp4" else ".webm");
    }
  }

  /** `(prev + 1) % mediaItems.length`. */
  function NextMedia(i: nat, n: nat): (r: nat)
    requires n >= 1
    ensures r < n
    ensures i < n ==> r == if i == n - 1 then 0 else i + 1
  {
    (i + 1) % n
  }

  /** `(prev - 1 + mediaItems.length) % mediaItems.length`. */
  function PrevMedia(i: nat, n: nat): (r: nat)
    requires n >= 1
    ensures r < n
    ensures i < n ==> r == if i == 0 then n - 1 else i - 1
  {
    (i - 1 + n) % n
  }

  /** Going forward and back, or back and forward, returns to the same item. */
  lemma PrevNextInverse(i: nat, n: nat)
    requires i < n
    ensures PrevMedia(NextMedia(i, n), n) == i
    ensures NextMedia(PrevMedia(i, n), n) == i
  {
  }

  /** Whether each carousel item is shown (full opacity) and takes pointer events. */
  function Visibility(items: seq<string>, index: nat): (r: seq<bool>)
    ensures |r| == |items|
    ensures forall k :: 0 <= k < |r| ==> (r[k] <==> k == index)
  {
    seq(|items|, k requires 0 <= k < |items| => k == index)
  }

  function CountTrue(flags: seq<bool>): nat
  {
    if flags == [] then 0 else (if flags[0] then 1 else 0) + CountTrue(flags[1..])
  }

  /** The number of flags set, with at most the one at `index`. */
  lemma {:induction false} CountAtMostOne(flags: seq<bool>, index: nat)
    requires forall k :: 0 <= k < |flags| ==> (flags[k] <==> k == index)
    ensures CountTrue(flags) == if index < |flags| then 1 else 0
  {
    if flags != [] {
      if index == 0 {
        CountAtMostOne(flags[1..], |flags|);
      } else {
        CountAtMostOne(flags[1..], index - 1);
      }
    }
  }

  /** With the index in range exactly one item is visible; out of range, none is. */
  lemma VisibleItems(items: seq<string>, index: nat)
    ensures CountTrue(Visibility(items, index)) == if index < |items| then 1 else 0
  {
    CountAtMostOne(Visibility(items, index), index);
  }

  datatype ModalView = Closed | Open(items: seq<string>, visible: seq<bool>, arrows: bool, dots: bool)

  /** Nothing without a project; arrows and dots only with more than one item. */
  function Render(project: Option<CardProject>, index: nat): (r: ModalView)
    ensures project.None? <==> r.Closed?
    ensures r.Open? ==> r.items == MediaItems(project) && r.visible == Visibility(r.items, index)
    ensures r.Open? ==> (r.arrows <==> |r.items| > 1) && (r.dots <==> |r.items| > 1)
    ensures r.Open? ==> (r.arrows <==> HasVideo(project.value))
  {
    if project.None? then Closed
    else
      var items := MediaItems(project);
      Open(items, Visibility(items, index), |items| > 1, |items| > 1)
  }

  class Modal {
    var project: Option<CardProject>
    var currentMediaIndex: nat
    var escapeListener: bool
    var bodyScrollLocked: bool
    var closeRequests: nat

    /** The carousel shows an item: the index is in range whenever a project is set. */
    predicate Showing()
      reads this
    {
      project.Some? ==> currentMediaIndex < |MediaItems(project)|
    }

    function MediaCount(): (r: nat)
      reads this
      ensures project.Some? ==> 1 <= r <= 2
    {
      |MediaItems(project)|
    }

    /** Mounting with a project installs the Escape listener and locks the body scroll. */
    constructor (p: Option<CardProject>)
      ensures project == p && currentMediaIndex == 0 && closeRequests == 0
      ensures escapeListener == p.Some? && bodyScrollLocked == p.Some?
      ensures Showing()
    {
      project := p;
      currentMediaIndex := 0;
      escapeListener := p.Some?;
      bodyScrollLocked := p.Some?;
      closeRequests := 0;
    }

    /** A new `project` prop as written: the effect's cleanup removes the listener and the
        lock, the effect reinstalls them for a project; the media index is kept. */
    method ChangeProjectAsWritten(p: Option<CardProject>)
      modifies this`project, this`escapeListener, this`bodyScrollLocked
      ensures project == p
      ensures escapeListener == p.Some? && bodyScrollLocked == p.Some?
    {
      project := p;
      escapeListener := p.Some?;
      bodyScrollLocked := p.Some?;
    }

    /** A new `project` prop with the media index reset to the first item. */
    method ChangeProject(p: Option<CardProject>)
      modifies this`project, this`escapeListener, this`bodyScrollLocked, this`currentMediaIndex
      ensures project == p && currentMediaIndex == 0
      ensures escapeListener == p.Some? && bodyScrollLocked == p.Some?
      ensures Showing()
    {
      project := p;
      currentMediaIndex := 0;
      escapeListener := p.Some?;
      bodyScrollLocked := p.Some?;
    }

    /** `keydown`: Escape asks to close, only while the listener is installed. */
    method KeyDown(key: string)
      modifies this`closeRequests
      ensures closeRequests == old(closeRequests) + if escapeListener && key == "Escape" then 1 else 0
    {
      if escapeListener && key == "Escape" {
        closeRequests := closeRequests + 1;
      }
    }

    /** A click on the open modal's outer layer closes it only when the click target is
        that layer itself, not something inside it. */
    method BackdropClick(targetIsBackdrop: bool)
      modifies this`closeRequests
      ensures closeRequests == old(closeRequests) + if project.Some? && targetIsBackdrop then 1 else 0
    {
      if project.Some? && targetIsBackdrop {
        closeRequests := closeRequests + 1;
      }
    }

    /** The close button of the open modal. */
    method CloseButton()
      modifies this`closeRequests
      ensures closeRequests == old(closeRequests) + if project.Some? then 1 else 0
    {
      if project.Some? {
        closeRequests := closeRequests + 1;
      }
    }

    /** The right arrow, present only with more than one item. */
    method Next()
      requires project.Some? && MediaCount() > 1
      modifies this`currentMediaIndex
      ensures currentMediaIndex == NextMedia(old(currentMediaIndex), MediaCount())
      ensures Showing()
    {
      currentMediaIndex := NextMedia(currentMediaIndex, MediaCount());
    }

    /** The left arrow, present only with more than one item. */
    method Previous()
      requires project.Some? && MediaCount() > 1
      modifies this`currentMediaIndex
      ensures currentMediaIndex == PrevMedia(old(currentMediaIndex), MediaCount())
      ensures Showing()
    {
      currentMediaIndex := PrevMedia(currentMediaIndex, MediaCount());
    }

    /** A dot, one per item, present only with more than one item. */
    method SelectDot(i: nat)
      requires project.Some? && MediaCount() > 1 && i < MediaCount()
      modifies this`currentMediaIndex
      ensures currentMediaIndex == i
      ensures Showing()
    {
      currentMediaIndex := i;
    }

    /** Unmounting runs the effect's cleanup. */
    method Unmount()
      modifies this`escapeListener, this`bodyScrollLocked
      ensures !escapeListener && !bodyScrollLocked
    {
      escapeListener := false;
      bodyScrollLocked := false;
    }

    /** The modal as rendered: closed without a project; otherwise the project's items, with
        the item at the current index visible and no other, and the arrows and dots
        exactly when the project has a video. */
    function View(): (r: ModalView)
      reads this
      ensures project.None? <==> r.Closed?
      ensures r.Open? ==> r.items == MediaItems(project) && |r.visible| == |r.items|
      ensures r.Open? ==> forall k :: 0 <= k < |r.visible| ==> (r.visible[k] <==> k == currentMediaIndex)
      ensures r.Open? ==> (r.arrows <==> HasVideo(project.value)) && (r.dots <==> HasVideo(project.value))
      ensures r.Open? ==> CountTrue(r.visible) == if currentMediaIndex < |r.items| then 1 else 0
      ensures r.Open? && Showing() ==> CountTrue(r.visible) == 1
    {
      VisibleItems(MediaItems(project), currentMediaIndex);
      Render(project, currentMediaIndex)
    }
  }

  /** As written, moving to the video of one project, closing, and opening a project
      without a video leaves the index at 1 over a single item: no item is visible, and
      with one item there are no arrows or dots to recover. With the reset, the image shows. */
  method StaleIndexScenario()
  {
    var withVideo := CardProject("a", "A", "a.png", Some("a.mp4"));
    var imageOnly := CardProject("b", "B", "b.png", None);
    var m := new Modal(Some(withVideo));
    m.Next();
    assert m.currentMediaIndex == 1;
    m.ChangeProjectAsWritten(None);
    m.ChangeProjectAsWritten(Some(imageOnly));
    assert MediaItems(m.project) == ["b.png"];
    assert !m.Showing();
    assert CountTrue(m.View().visible) == 0 && !m.View().arrows && !m.View().dots;

    m.ChangeProject(Some(imageOnly));
    assert CountTrue(m.View().visible) == 1;
  }
}
