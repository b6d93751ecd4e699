/**
 * The event throttling of scroller.js as an explicit scheduler.
 *
 * The controller's own state is the `didScroll` flag and the `resizeTimeout`
 * handle; the scheduler's is the number of scroll callbacks (set with a 60 ms
 * delay) still to run, the set of resize callbacks (200 ms) still to run, and
 * the next handle setTimeout will hand out. Browsers hand out positive handles,
 * so the truthiness test on `resizeTimeout` is `resizeTimeout.Some?`.
 *
 * Events: a scroll or a resize from the window, or the scheduler running a
 * pending scroll callback or the resize callback with a given handle. Both
 * callbacks run scrollPage, whose effect here is to clear `didScroll`.
 */
module Timers {
  import opened Wrappers

  type Handle = nat

  datatype Event = Scroll | Resize | FireScroll | FireResize(handle: Handle)

  datatype TimerState = TimerState(
    didScroll: bool,
    resizeTimeout: Option<Handle>,
    pendingScroll: nat,
    pendingResize: set<Handle>,
    nextHandle: Handle)

  /** The state right after init: nothing pending, no handle stored. */
  const Idle: TimerState := TimerState(false, None, 0, {}, 1)

  function HandleSet(h: Option<Handle>): set<Handle>
  {
    if h.Some? then {h.value} else {}
  }

  /**
   * The invariant the handlers keep: a set flag is backed by a pending scroll
   * callback, the pending resize callbacks are exactly the stored handle, and
   * that handle was handed out before the next one.
   */
  predicate Inv(t: TimerState)
  {
    (t.didScroll ==> t.pendingScroll >= 1)
    && t.pendingResize == HandleSet(t.resizeTimeout)
    && (t.resizeTimeout.Some? ==> t.resizeTimeout.value < t.nextHandle)
  }

  /** Whether the event runs scrollPage. */
  predicate Fires(t: TimerState, e: Event)
  {
    match e
    case FireScroll => t.pendingScroll > 0
    case FireResize(h) => h in t.pendingResize
    case _ => false
  }

  /**
   * One event: scrollHandler, resizeHandler, or the scheduler running a callback.
   * No event schedules more than one scroll or resize callback, every
   * re-evaluation leaves the flag clear, and handles are never reused.
   */
  function Step(t: TimerState, e: Event): (r: TimerState)
    ensures r.pendingScroll <= t.pendingScroll + 1
    ensures Fires(t, e) ==> !r.didScroll
    ensures r.nextHandle >= t.nextHandle
  {
    match e
    case Scroll =>
      if !t.didScroll then t.(didScroll := true, pendingScroll := t.pendingScroll + 1) else t
    case Resize =>
      var kept := t.pendingResize - HandleSet(t.resizeTimeout);
      t.(pendingResize := kept + {t.nextHandle}, resizeTimeout := Some(t.nextHandle),
         nextHandle := t.nextHandle + 1)
    case FireScroll =>
      if t.pendingScroll > 0 then t.(pendingScroll := t.pendingScroll - 1, didScroll := false) else t
    case FireResize(h) =>
      if h in t.pendingResize
      then t.(pendingResize := t.pendingResize - {h}, didScroll := false, resizeTimeout := None)
      else t
  }

  function Run(t: TimerState, es: seq<Event>): TimerState
    decreases |es|
  {
    if es == [] then t else Run(Step(t, es[0]), es[1..])
  }

  /** The number of times scrollPage runs along a trace. */
  function Evaluations(t: TimerState, es: seq<Event>): nat
    decreases |es|
  {
    if es == [] then 0
    else (if Fires(t, es[0]) then 1 else 0) + Evaluations(Step(t, es[0]), es[1..])
  }

  function Repeat(e: Event, n: nat): (es: seq<Event>)
    ensures |es| == n && forall i :: 0 <= i < n ==> es[i] == e
  {
    seq(n, _ => e)
  }

  lemma StepPreservesInv(t: TimerState, e: Event)
    requires Inv(t)
    ensures Inv(Step(t, e))
  {
  }

  lemma {:induction false} RunPreservesInv(t: TimerState, es: seq<Event>)
    requires Inv(t)
    ensures Inv(Run(t, es))
    decreases |es|
  {
    if es != [] {
      StepPreservesInv(t, es[0]);
      RunPreservesInv(Step(t, es[0]), es[1..]);
    }
  }

  /** At most one resize callback is ever pending. */
  lemma AtMostOneResizePending(t: TimerState)
    requires Inv(t)
    ensures |t.pendingResize| <= 1
  {
  }

  /** A scroll while the flag is set schedules nothing and changes nothing. */
  lemma ScrollWhileFlaggedIsIgnored(t: TimerState)
    requires t.didScroll
    ensures Step(t, Scroll) == t
  {
  }

  /** Otherwise a scroll sets the flag and schedules exactly one callback. */
  lemma ScrollWhileClearSchedulesOne(t: TimerState)
    requires !t.didScroll
    ensures Step(t, Scroll).didScroll
    ensures Step(t, Scroll).pendingScroll == t.pendingScroll + 1
    ensures Step(t, Scroll).pendingResize == t.pendingResize
  {
  }

  /** A resize cancels the pending resize callback before arming the new one. */
  lemma ResizeReplacesPending(t: TimerState)
    requires Inv(t)
    ensures Step(t, Resize).pendingResize == {t.nextHandle}
    ensures Step(t, Resize).resizeTimeout == Some(t.nextHandle)
    ensures t.resizeTimeout.Some? ==> t.resizeTimeout.value !in Step(t, Resize).pendingResize
  {
  }

  /** The resize callback, once run, leaves no handle stored and nothing pending. */
  lemma FireResizeClearsHandle(t: TimerState, h: Handle)
    requires Inv(t) && h in t.pendingResize
    ensures Step(t, FireResize(h)).resizeTimeout == None
    ensures Step(t, FireResize(h)).pendingResize == {}
    ensures !Step(t, FireResize(h)).didScroll
  {
  }

  /** A cancelled (or never armed) resize callback never runs. */
  lemma CancelledResizeNeverFires(t: TimerState, h: Handle)
    requires h !in t.pendingResize
    ensures Step(t, FireResize(h)) == t && !Fires(t, FireResize(h))
  {
  }

  lemma {:induction false} RunAppend(t: TimerState, a: seq<Event>, b: seq<Event>)
    ensures Run(t, a + b) == Run(Run(t, a), b)
    ensures Evaluations(t, a + b) == Evaluations(t, a) + Evaluations(Run(t, a), b)
    decreases |a|
  {
    if a != [] {
      assert (a + b)[0] == a[0];
      assert (a + b)[1..] == a[1..] + b;
      RunAppend(Step(t, a[0]), a[1..], b);
    } else {
      assert a + b == b;
    }
  }

  /** A burst of scroll events does what its first event does, and runs nothing. */
  lemma {:induction false} ScrollBurst(t: TimerState, n: nat)
    requires n >= 1
    ensures Run(t, Repeat(Scroll, n)) == Step(t, Scroll)
    ensures Evaluations(t, Repeat(Scroll, n)) == 0
    decreases n
  {
    if n > 1 {
      assert Repeat(Scroll, n) == [Scroll] + Repeat(Scroll, n - 1);
      ScrollBurst(Step(t, Scroll), n - 1);
      assert Step(Step(t, Scroll), Scroll) == Step(t, Scroll);
    } else {
      assert Repeat(Scroll, 1)[1..] == [];
    }
  }

  lemma {:induction false} DrainedScrollCallbacksDoNothing(t: TimerState, k: nat)
    requires t.pendingScroll == 0
    ensures Run(t, Repeat(FireScroll, k)) == t
    ensures Evaluations(t, Repeat(FireScroll, k)) == 0
    decreases k
  {
    if k > 0 {
      assert Repeat(FireScroll, k)[1..] == Repeat(FireScroll, k - 1);
      DrainedScrollCallbacksDoNothing(t, k - 1);
    }
  }

  /**
   * Scroll coalescing: from a state with nothing scheduled, any burst of scroll
   * events followed by the scheduler running callbacks re-evaluates exactly once.
   */
  lemma ScrollBurstEvaluatesOnce(t: TimerState, n: nat, k: nat)
    requires !t.didScroll && t.pendingScroll == 0
    requires n >= 1 && k >= 1
    ensures Evaluations(t, Repeat(Scroll, n) + Repeat(FireScroll, k)) == 1
  {
    var s := Step(t, Scroll);
    ScrollBurst(t, n);
    RunAppend(t, Repeat(Scroll, n), Repeat(FireScroll, k));
    assert Repeat(FireScroll, k) == [FireScroll] + Repeat(FireScroll, k - 1);
    DrainedScrollCallbacksDoNothing(Step(s, FireScroll), k - 1);
  }

  /** A burst of n resize events leaves only the last handle pending, and runs nothing. */
  lemma {:induction false} ResizeBurst(t: TimerState, n: nat)
    requires Inv(t) && n >= 1
    ensures Run(t, Repeat(Resize, n)).pendingResize == {t.nextHandle + n - 1}
    ensures Run(t, Repeat(Resize, n)).resizeTimeout == Some(t.nextHandle + n - 1)
    ensures Run(t, Repeat(Resize, n)).nextHandle == t.nextHandle + n
    ensures Run(t, Repeat(Resize, n)).didScroll == t.didScroll
    ensures Evaluations(t, Repeat(Resize, n)) == 0
    decreases n
  {
    assert Repeat(Resize, n) == [Resize] + Repeat(Resize, n - 1);
    if n > 1 {
      StepPreservesInv(t, Resize);
      ResizeBurst(Step(t, Resize), n - 1);
    }
  }

  /** The callbacks of resize events `first`, `first + 1`, ... in the order they were armed. */
  function ResizeCallbacks(first: Handle, n: nat): (es: seq<Event>)
    ensures |es| == n && forall i :: 0 <= i < n ==> es[i] == FireResize(first + i)
  {
    seq(n, i requires 0 <= i < n => FireResize(first + i))
  }

  lemma {:induction false} CancelledCallbacksDoNothing(t: TimerState, first: Handle, n: nat)
    requires forall h :: first <= h < first + n ==> h !in t.pendingResize
    ensures Run(t, ResizeCallbacks(first, n)) == t
    ensures Evaluations(t, ResizeCallbacks(first, n)) == 0
    decreases n
  {
    if n > 0 {
      assert ResizeCallbacks(first, n)[1..] == ResizeCallbacks(first + 1, n - 1);
      assert first !in t.pendingResize;
      CancelledCallbacksDoNothing(t, first + 1, n - 1);
    }
  }

  /**
   * Resize debounce: after a burst of n resize events, of the n callbacks armed
   * only the last one runs, so scrollPage runs exactly once, and afterwards no
   * handle is stored.
   */
  lemma ResizeBurstEvaluatesOnce(t: TimerState, n: nat)
    requires Inv(t) && n >= 1
    ensures Evaluations(t, Repeat(Resize, n) + ResizeCallbacks(t.nextHandle, n)) == 1
    ensures Run(t, Repeat(Resize, n) + ResizeCallbacks(t.nextHandle, n)).resizeTimeout == None
  {
    var bursts := Repeat(Resize, n);
    var callbacks := ResizeCallbacks(t.nextHandle, n);
    var s := Run(t, bursts);
    assert s.pendingResize == {t.nextHandle + n - 1} && Evaluations(t, bursts) == 0 by {
      ResizeBurst(t, n);
    }
    assert Evaluations(s, callbacks) == 1 && Run(s, callbacks).resizeTimeout == None by {
      OnlyLastCallbackRuns(s, t.nextHandle, n);
    }
    RunAppend(t, bursts, callbacks);
  }

  lemma OnlyLastCallbackRuns(s: TimerState, first: Handle, n: nat)
    requires n >= 1 && s.pendingResize == {first + n - 1}
    ensures Evaluations(s, ResizeCallbacks(first, n)) == 1
    ensures Run(s, ResizeCallbacks(first, n)).resizeTimeout == None
  {
    var lastHandle := first + n - 1;
    var earlier := ResizeCallbacks(first, n - 1);
    var last := [FireResize(lastHandle)];
    assert ResizeCallbacks(first, n) == earlier + last;
    CancelledCallbacksDoNothing(s, first, n - 1);
    RunAppend(s, earlier, last);
    assert Fires(s, FireResize(lastHandle));
    assert last[1..] == [];
  }

  /**
   * "At most one pending scroll callback" does not hold: a resize callback clears
   * the flag while a scroll callback is still pending, so the next scroll
   * schedules a second one. With the real delays: a resize at 0 ms, a scroll at
   * 190 ms (callback due at 250 ms), the resize callback at 200 ms, a scroll at
   * 210 ms.
   */
  lemma TwoScrollCallbacksCanBePending()
    ensures Inv(Idle)
    ensures Run(Idle, [Resize, Scroll, FireResize(1), Scroll]).pendingScroll == 2
  {
  }
}
