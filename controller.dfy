/**
 * The Scroller controller of scroller.js.
 *
 * A section is a page element: its layout readings and its set of CSS classes,
 * which the controller rewrites in place. The controller captures its sections
 * once, seeds their start state, coalesces scroll events through `didScroll`,
 * debounces resize events through `resizeTimeout`, and on each re-evaluation
 * (scrollPage) marks every section as animated or reset.
 *
 * The window readings at the moment a handler or callback runs are its `Window`
 * parameter. The scheduler's record of this controller's callbacks (pending
 * scroll callbacks, pending resize callbacks, the next handle) lives in fields
 * beside the controller's own, and its running a callback is a method.
 */
module Controller {
  import opened Wrappers
  import opened Geometry
  import opened Viewport
  import opened Options
  import opened Timers

  const InitialState: string := "initial-state-of-section"
  const Animate: string := "animate"

  class Section {
    var layout: Layout
    var classes: set<string>

    constructor (layout: Layout, classes: set<string>)
      ensures this.layout == layout && this.classes == classes
    {
      this.layout := layout;
      this.classes := classes;
    }

    /** The body of init's forEach for this section. */
    method Seed(inView: bool)
      modifies this
      ensures layout == old(layout) && classes == Seeded(old(classes), inView)
    {
      if !inView {
        classes := classes + {InitialState};
      }
    }

    /** The body of scrollPage's forEach for this section. */
    method Mark(inView: bool)
      modifies this
      ensures layout == old(layout) && classes == Reevaluated(old(classes), inView)
    {
      if inView {
        classes := classes + {Animate};
      } else {
        classes := classes + {InitialState};
        classes := classes - {Animate};
      }
    }
  }

  /** The classes of a section after init: reset to the start state unless already in view. */
  function Seeded(classes: set<string>, inView: bool): (r: set<string>)
    ensures InitialState in r <==> InitialState in classes || !inView
    ensures forall c :: c != InitialState ==> (c in r <==> c in classes)
  {
    if inView then classes else classes + {InitialState}
  }

  /** The classes of a section after scrollPage. */
  function Reevaluated(classes: set<string>, inView: bool): (r: set<string>)
    ensures inView ==> Animate in r && forall c :: c != Animate ==> (c in r <==> c in classes)
    ensures !inView ==> InitialState in r && Animate !in r
    ensures !inView ==> forall c :: c != Animate && c != InitialState ==> (c in r <==> c in classes)
  {
    if inView then classes + {Animate} else classes + {InitialState} - {Animate}
  }

  /**
   * scrollPage's test at the effective factor: None stands for NaN, which fails
   * the first clause of inViewport for every section.
   */
  function SectionInView(w: Window, g: Layout, factor: Option<real>): (inView: bool)
    ensures factor == None ==> !inView
    ensures factor == Some(0.0) ==> (inView <==> InViewport(w, g))
    ensures factor.Some? ==> (inView <==> InViewport(w, g, factor.value))
  {
    factor.Some? && InViewport(w, g, factor.value)
  }

  /** Re-evaluating twice against the same readings changes nothing the second time. */
  lemma ReevaluatedIdempotent(classes: set<string>, inView: bool)
    ensures Reevaluated(Reevaluated(classes, inView), inView) == Reevaluated(classes, inView)
  {
  }

  /** scrollPage never removes the start-state class, not even from a section in view. */
  lemma InitialStateNeverRemoved(classes: set<string>, inView: bool)
    requires InitialState in classes
    ensures InitialState in Reevaluated(classes, inView)
  {
  }

  /** The class sets of all sections after init. */
  function PageAfterInit(w: Window, layouts: seq<Layout>, classes: seq<set<string>>): (r: seq<set<string>>)
    requires |layouts| == |classes|
    ensures |r| == |classes|
    ensures forall i :: 0 <= i < |r| ==> r[i] == Seeded(classes[i], InViewport(w, layouts[i]))
  {
    if classes == [] then []
    else
      var n := |classes| - 1;
      PageAfterInit(w, layouts[..n], classes[..n]) + [Seeded(classes[n], InViewport(w, layouts[n]))]
  }

  /** The class sets of all sections after scrollPage. */
  function PageAfterScroll(w: Window, layouts: seq<Layout>, classes: seq<set<string>>, factor: Option<real>)
    : (r: seq<set<string>>)
    requires |layouts| == |classes|
    ensures |r| == |classes|
    ensures forall i :: 0 <= i < |r| ==> r[i] == Reevaluated(classes[i], SectionInView(w, layouts[i], factor))
  {
    if classes == [] then []
    else
      var n := |classes| - 1;
      PageAfterScroll(w, layouts[..n], classes[..n], factor)
        + [Reevaluated(classes[n], SectionInView(w, layouts[n], factor))]
  }

  /** With unchanged geometry and readings, a second scrollPage is a no-op. */
  lemma PageAfterScrollIdempotent(w: Window, layouts: seq<Layout>, classes: seq<set<string>>, factor: Option<real>)
    requires |layouts| == |classes|
    ensures PageAfterScroll(w, layouts, PageAfterScroll(w, layouts, classes, factor), factor)
            == PageAfterScroll(w, layouts, classes, factor)
  {
    var once := PageAfterScroll(w, layouts, classes, factor);
    forall i | 0 <= i < |classes|
      ensures PageAfterScroll(w, layouts, once, factor)[i] == once[i]
    {
      ReevaluatedIdempotent(classes[i], SectionInView(w, layouts[i], factor));
    }
  }

  /**
   * After init and any number of re-evaluations, a section that init found out
   * of view still carries the start-state class.
   */
  lemma StartStateSurvives(w: Window, ws: seq<Window>, layouts: seq<Layout>, classes: seq<set<string>>,
                           factor: Option<real>, i: nat)
    requires |layouts| == |classes| && i < |classes| && !InViewport(w, layouts[i])
    ensures InitialState in ReevaluateAll(ws, layouts, PageAfterInit(w, layouts, classes), factor)[i]
  {
    StartStateKept(ws, layouts, PageAfterInit(w, layouts, classes), factor, i);
  }

  /** The class sets after one scrollPage per window snapshot in `ws`, in order. */
  function ReevaluateAll(ws: seq<Window>, layouts: seq<Layout>, classes: seq<set<string>>, factor: Option<real>)
    : (r: seq<set<string>>)
    requires |layouts| == |classes|
    ensures |r| == |classes|
    decreases |ws|
  {
    if ws == [] then classes
    else ReevaluateAll(ws[1..], layouts, PageAfterScroll(ws[0], layouts, classes, factor), factor)
  }

  lemma {:induction false} StartStateKept(ws: seq<Window>, layouts: seq<Layout>, classes: seq<set<string>>,
                                          factor: Option<real>, i: nat)
    requires |layouts| == |classes| && i < |classes| && InitialState in classes[i]
    ensures InitialState in ReevaluateAll(ws, layouts, classes, factor)[i]
    decreases |ws|
  {
    if ws != [] {
      var next := PageAfterScroll(ws[0], layouts, classes, factor);
      InitialStateNeverRemoved(classes[i], SectionInView(ws[0], layouts[i], factor));
      StartStateKept(ws[1..], layouts, next, factor, i);
    }
  }

  predicate Distinct(ss: seq<Section>)
  {
    forall i, j :: 0 <= i < j < |ss| ==> ss[i] != ss[j]
  }

  ghost function LayoutsOf(ss: seq<Section>): (ls: seq<Layout>)
    reads ss
    ensures |ls| == |ss| && forall i :: 0 <= i < |ss| ==> ls[i] == ss[i].layout
  {
    seq(|ss|, i reads ss requires 0 <= i < |ss| => ss[i].layout)
  }

  ghost function ClassesOf(ss: seq<Section>): (cs: seq<set<string>>)
    reads ss
    ensures |cs| == |ss| && forall i :: 0 <= i < |ss| ==> cs[i] == ss[i].classes
  {
    seq(|ss|, i reads ss requires 0 <= i < |ss| => ss[i].classes)
  }

  /** init's forEach: seeds every section's start state in query order. */
  method SeedAll(w: Window, ss: seq<Section>)
    requires Distinct(ss)
    modifies ss
    ensures LayoutsOf(ss) == old(LayoutsOf(ss))
    ensures ClassesOf(ss) == PageAfterInit(w, LayoutsOf(ss), old(ClassesOf(ss)))
  {
    ghost var layouts := LayoutsOf(ss);
    ghost var target := PageAfterInit(w, layouts, ClassesOf(ss));
    var i := 0;
    while i < |ss|
      invariant 0 <= i <= |ss|
      invariant forall j :: 0 <= j < |ss| ==> ss[j].layout == layouts[j]
      invariant forall j :: 0 <= j < i ==> ss[j].classes == target[j]
      invariant forall j :: i <= j < |ss| ==> ss[j].classes == old(ss[j].classes)
    {
      var section := ss[i];
      section.Seed(InViewport(w, section.layout));
      i := i + 1;
    }
    assert ClassesOf(ss) == target;
  }

  /** scrollPage's forEach: marks every section in view or out of view at `factor`. */
  method MarkAll(w: Window, ss: seq<Section>, factor: Option<real>)
    requires Distinct(ss)
    modifies ss
    ensures LayoutsOf(ss) == old(LayoutsOf(ss))
    ensures ClassesOf(ss) == PageAfterScroll(w, LayoutsOf(ss), old(ClassesOf(ss)), factor)
  {
    ghost var layouts := LayoutsOf(ss);
    ghost var target := PageAfterScroll(w, layouts, ClassesOf(ss), factor);
    var i := 0;
    while i < |ss|
      invariant 0 <= i <= |ss|
      invariant forall j :: 0 <= j < |ss| ==> ss[j].layout == layouts[j]
      invariant forall j :: 0 <= j < i ==> ss[j].classes == target[j]
      invariant forall j :: i <= j < |ss| ==> ss[j].classes == old(ss[j].classes)
    {
      var section := ss[i];
      section.Mark(SectionInView(w, section.layout, factor));
      i := i + 1;
    }
    assert ClassesOf(ss) == target;
  }

  class Scroller {
    var sections: seq<Section>
    var defaults: JsObject
    var options: JsObject
    var didScroll: bool
    var resizeTimeout: Option<Handle>
    // The scheduler's record of this controller's callbacks.
    var pendingScroll: nat
    var pendingResize: set<Handle>
    var nextHandle: Handle

    function Timers(): TimerState
      reads this
    {
      TimerState(didScroll, resizeTimeout, pendingScroll, pendingResize, nextHandle)
    }

    /** The options object is the defaults object extend_object returned; the timers keep Inv. */
    ghost predicate Valid()
      reads this
    {
      Distinct(sections) && Inv(Timers()) && options == defaults
    }

    function Factor(): Option<real>
      reads this, options
    {
      EffectiveFactor(options.props)
    }

    /**
     * new Scroller(element, options): `found` is what the element's section
     * query returns, in document order, and `userOptions` the caller's options
     * (empty when none are passed).
     */
    constructor (w: Window, found: seq<Section>, userOptions: Props)
      requires Distinct(found)
      modifies found
      ensures Valid() && sections == found
      ensures fresh(options) && options.props == Extend(Defaults(), userOptions)
      ensures Timers() == Idle
      ensures LayoutsOf(found) == old(LayoutsOf(found))
      ensures ClassesOf(found) == PageAfterInit(w, LayoutsOf(found), old(ClassesOf(found)))
    {
      var d := new JsObject(Defaults());
      defaults := d;
      var merged := ExtendObject(d, userOptions);
      options := merged;
      sections := [];
      didScroll := false;
      resizeTimeout := None;
      pendingScroll, pendingResize, nextHandle := 0, {}, 1;
      new;
      Init(w, found);
    }

    /** init: captures the sections and resets those not in view (factor 0) to the start state. */
    method Init(w: Window, found: seq<Section>)
      requires Distinct(found) && Inv(Timers()) && options == defaults
      modifies this, found
      ensures Valid()
      ensures sections == found && options == old(options) && defaults == old(defaults)
      ensures Timers() == old(Timers()).(didScroll := false)
      ensures LayoutsOf(found) == old(LayoutsOf(found))
      ensures ClassesOf(found) == PageAfterInit(w, LayoutsOf(found), old(ClassesOf(found)))
    {
      sections := found;
      didScroll := false;
      SeedAll(w, sections);
    }

    /** scrollPage: re-evaluates every section against the current readings, then clears the flag. */
    method ScrollPage(w: Window)
      requires Distinct(sections)
      modifies this, sections
      ensures sections == old(sections) && options == old(options) && defaults == old(defaults)
      ensures Timers() == old(Timers()).(didScroll := false)
      ensures LayoutsOf(sections) == old(LayoutsOf(sections))
      ensures ClassesOf(sections) == PageAfterScroll(w, LayoutsOf(sections), old(ClassesOf(sections)), Factor())
    {
      MarkAll(w, sections, Factor());
      didScroll := false;
    }

    /** scrollHandler: schedules a re-evaluation unless one is already flagged. */
    method ScrollHandler()
      requires Valid()
      modifies this
      ensures Valid()
      ensures sections == old(sections) && options == old(options) && defaults == old(defaults)
      ensures Timers() == Step(old(Timers()), Scroll)
    {
      if !didScroll {
        didScroll := true;
        // setTimeout(() => scrollPage(), 60)
        pendingScroll := pendingScroll + 1;
      }
    }

    /** resizeHandler: cancels the pending resize callback, if any, and arms a new one. */
    method ResizeHandler()
      requires Valid()
      modifies this
      ensures Valid()
      ensures sections == old(sections) && options == old(options) && defaults == old(defaults)
      ensures Timers() == Step(old(Timers()), Resize)
    {
      if resizeTimeout.Some? {
        // clearTimeout(resizeTimeout)
        pendingResize := pendingResize - {resizeTimeout.value};
      }
      // setTimeout(delayed, 200)
      var handle := nextHandle;
      nextHandle := nextHandle + 1;
      pendingResize := pendingResize + {handle};
      resizeTimeout := Some(handle);
    }

    /** delayed: the resize callback re-evaluates, then forgets its handle. */
    method Delayed(w: Window)
      requires Distinct(sections)
      modifies this, sections
      ensures sections == old(sections) && options == old(options) && defaults == old(defaults)
      ensures Timers() == old(Timers()).(didScroll := false, resizeTimeout := None)
      ensures LayoutsOf(sections) == old(LayoutsOf(sections))
      ensures ClassesOf(sections) == PageAfterScroll(w, LayoutsOf(sections), old(ClassesOf(sections)), Factor())
    {
      ScrollPage(w);
      resizeTimeout := None;
    }

    /** The scheduler runs a pending scroll callback, if there is one. */
    method RunScrollCallback(w: Window)
      requires Valid()
      modifies this, sections
      ensures Valid()
      ensures sections == old(sections) && options == old(options) && defaults == old(defaults)
      ensures Timers() == Step(old(Timers()), FireScroll)
      ensures LayoutsOf(sections) == old(LayoutsOf(sections))
      ensures ClassesOf(sections) ==
                if old(pendingScroll) > 0
                then PageAfterScroll(w, LayoutsOf(sections), old(ClassesOf(sections)), Factor())
                else old(ClassesOf(sections))
    {
      if pendingScroll > 0 {
        pendingScroll := pendingScroll - 1;
        ScrollPage(w);
      }
    }

    /** The scheduler runs the resize callback armed with handle `h`, unless it was cancelled. */
    method RunResizeCallback(w: Window, h: Handle)
      requires Valid()
      modifies this, sections
      ensures Valid()
      ensures sections == old(sections) && options == old(options) && defaults == old(defaults)
      ensures Timers() == Step(old(Timers()), FireResize(h))
      ensures LayoutsOf(sections) == old(LayoutsOf(sections))
      ensures ClassesOf(sections) ==
                if h in old(pendingResize)
                then PageAfterScroll(w, LayoutsOf(sections), old(ClassesOf(sections)), Factor())
                else old(ClassesOf(sections))
    {
      if h in pendingResize {
        pendingResize := pendingResize - {h};
        Delayed(w);
      }
    }

    /**
     * The scheduler delivers one event: a scroll or resize from the window, or
     * the running of a callback. The class sets change exactly when a pending
     * callback runs.
     */
    method Dispatch(w: Window, e: Event)
      requires Valid()
      modifies this, sections
      ensures Valid()
      ensures sections == old(sections) && options == old(options) && defaults == old(defaults)
      ensures Timers() == Step(old(Timers()), e)
      ensures LayoutsOf(sections) == old(LayoutsOf(sections))
      ensures ClassesOf(sections) ==
                if Fires(old(Timers()), e)
                then PageAfterScroll(w, LayoutsOf(sections), old(ClassesOf(sections)), Factor())
                else old(ClassesOf(sections))
    {
      match e
      case Scroll =>
        ScrollHandler();
      case Resize =>
        ResizeHandler();
      case FireScroll =>
        RunScrollCallback(w);
      case FireResize(h) =>
        RunResizeCallback(w, h);
    }
  }
}
