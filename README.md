# Slide-in-on-scroll controller, modelled in Dafny

`scripts/scroller.js` watches the window's scroll and resize events and toggles two
CSS classes on the page's `.section` elements so that a stylesheet can animate them
into view: `initial-state-of-section` (the pre-animation start state) and `animate`.
This project models that script and proves what it promises:

- `wrappers.dfy` — `Option`, used for NaN readings and missing options.
- `geometry.dfy` (module `Geometry`) — `getViewportHeight`, `scrollY` and `getOffset`.
  The window and document readings are one `Window` value. An element's `offsetTop`
  and `offsetLeft` readings, for the element and then each `offsetParent` ancestor,
  are `OffsetEntry` values; `None` stands for NaN. `GetOffset` keeps the source's
  do-while loop and is proved equal to `DocumentOffset`, the sum of the non-NaN
  readings, each coordinate on its own.
- `viewport.dfy` (module `Viewport`) — `inViewport`, over exact reals, with its
  default factor 0.
- `options.dfy` (module `Options`) — `extend_object` as a loop over the keys of the
  second object that writes into the first object (a `JsObject` class), and the
  `Scroller` defaults `{ viewportFactor: 0.3 }`.
- `timers.dfy` (module `Timers`) — the throttling as a state machine. It holds the
  `didScroll` flag and the `resizeTimeout` handle, plus the scheduler's record: the
  number of pending scroll callbacks, the set of pending resize callbacks, and the next
  handle. The events are `Scroll`, `Resize`, `FireScroll` and `FireResize(handle)`.
  Lemmas cover single steps and whole traces.
- `controller.dfy` (module `Controller`) — class `Scroller` with `init`,
  `scrollHandler`, `resizeHandler`, `delayed` and `scrollPage`. Each section is a
  `Section` object holding its layout readings and its class set. The methods update
  the class sets in place, and their postconditions tie the new class sets to
  `PageAfterInit` / `PageAfterScroll` and the new timer state to `Timers.Step`.

Two behaviours of the code may surprise a reader:

- A section that comes into view gains `animate` but keeps `initial-state-of-section`:
  `scrollPage` never removes that class (scripts/scroller.js:244-246). See
  `InitialStateNeverRemoved` and `StartStateSurvives`.
- More than one scroll callback can be pending. The resize callback runs `scrollPage`,
  which clears `didScroll` (scripts/scroller.js:215, 254). So a scroll that arrives
  while a scroll callback is still pending schedules a second one. One such sequence
  with the real delays: a resize at 0 ms, a scroll at 190 ms, the resize callback at
  200 ms, and a scroll at 210 ms. `TwoScrollCallbacksCanBePending` shows this trace.
  The invariant that does hold is `didScroll ==> pendingScroll >= 1`, part of
  `Timers.Inv`.
- A caller who passes `viewportFactor: undefined` overwrites the default 0.3 with
  `undefined`. `scrollPage` then calls `inViewport` with `undefined`, and the
  parameter's default 0 applies (scripts/scroller.js:99, 135-137, 244). See
  `Options.EffectiveFactor` and `Options.MergedFactor`.

## Model

| member | source | states |
|---|---|---|
| `Geometry.ViewportHeight` | scripts/scroller.js:11-20 | the result is at least the client height and at least the inner height, and equals one of them (their maximum) |
| `Geometry.ScrollY` | scripts/scroller.js:28-30 | the result is `pageYOffset` when that is non-zero and `scrollTop` when it is zero; it is non-negative when both readings are |
| `Geometry.GetOffset` | scripts/scroller.js:40-57 | the do-while walk over the element and its offsetParent chain returns `DocumentOffset` of the chain: top is the sum of the non-NaN `offsetTop` readings and left, independently, the sum of the non-NaN `offsetLeft` readings |
| `Geometry.DocumentOffsetSplits` | scripts/scroller.js:40-57 | an element's document offset is its own offset (NaN counting as zero) plus its offsetParent's document offset, top and left each on its own |
| `Geometry.KnownSumSkipsNaN` | scripts/scroller.js:45-51 | a NaN reading anywhere in the chain can be dropped without changing the sum, so it contributes zero |
| `Geometry.KnownSumAppend` | scripts/scroller.js:45-52 | the offset sum over a chain split in two is the sum of the offset sums of the parts |
| `Geometry.KnownSumOfPresent` | scripts/scroller.js:45-52 | when no reading is NaN, the offset is the plain sum of the readings |
| `Viewport.InViewport` | scripts/scroller.js:99-110 | the viewport test at a factor (default 0). An element in view has its bottom at or below the scroll offset. For a non-negative height and factor, its top is also at or above the visible bottom |
| `Viewport.BelowViewportNeverInView` | scripts/scroller.js:99-110 | for a non-negative height and factor, an element whose top lies below the visible bottom is not in view |
| `Viewport.AboveViewportNeverInView` | scripts/scroller.js:99-110 | an element whose bottom lies above the scroll offset is not in view, for every factor |
| `Viewport.InViewportAntitone` | scripts/scroller.js:88-107 | for a non-negative height, being in view at a factor implies being in view at every smaller factor, and being out of view at a factor implies being out of view at every larger one |
| `Viewport.DefaultFactorMeansOverlap` | scripts/scroller.js:91-107 | at the default factor 0 an element is in view exactly when its top is at or above the visible bottom and its bottom at or below the scroll offset (any overlap) |
| `Viewport.FullFactorMeansWhollyAbove` | scripts/scroller.js:91-107 | at factor 1 an element is in view exactly when its whole height is above the visible bottom and its bottom is not above the scroll offset |
| `Viewport.WorkedExample` | scripts/scroller.js:99-110 | a 100-pixel section at y = 2000, in an 800-pixel viewport scrolled to 1250, is in view at factor 0.3 |
| `Options.Extend` | scripts/scroller.js:134-142 | the merged object has the keys of both; every key of the second maps to the second's value and every other key to the first's |
| `Options.ExtendObject` | scripts/scroller.js:134-142 | the for-in loop leaves the first object holding `Extend` of its old properties and the second's, and returns the first object itself |
| `Options.ExtendByEmpty` | scripts/scroller.js:134-142 | merging an empty (or absent) options object leaves the first unchanged |
| `Options.ExtendIdempotent` | scripts/scroller.js:134-142 | merging the same overrides twice equals merging them once |
| `Options.Defaults` | scripts/scroller.js:153-164 | the defaults record has the single key `viewportFactor`, whose effective factor is 0.3 |
| `Options.EffectiveFactor` | scripts/scroller.js:99 | the factor `inViewport` computes with when given `options.viewportFactor`: 0 (the parameter's default) for a missing or `undefined` property, the number itself for a numeric value, and NaN (None) for a value that coerces to NaN |
| `Options.MergedFactor` | scripts/scroller.js:153-166 | a new Scroller's options always hold `viewportFactor`. Its effective factor is 0.3 unless the caller's options supply the key; then it is the supplied value's effective factor, which is 0 for a supplied `undefined`. No caller options give exactly the defaults |
| `Timers.Step` | scripts/scroller.js:202-224 | no event adds more than one pending scroll callback; every event that runs a re-evaluation leaves `didScroll` clear; handles are never reused (the next handle never decreases) |
| `Timers.StepPreservesInv` | scripts/scroller.js:202-224 | every event keeps the invariant: a set `didScroll` is backed by a pending scroll callback, and the pending resize callbacks are exactly the stored `resizeTimeout` handle |
| `Timers.RunPreservesInv` | scripts/scroller.js:202-224 | every trace of events from an invariant state keeps the invariant |
| `Timers.AtMostOneResizePending` | scripts/scroller.js:213-224 | under the invariant at most one resize callback is pending |
| `Timers.ScrollWhileFlaggedIsIgnored` | scripts/scroller.js:202-207 | a scroll event while `didScroll` is set changes no state and schedules nothing |
| `Timers.ScrollWhileClearSchedulesOne` | scripts/scroller.js:202-207 | a scroll event while `didScroll` is clear sets it and schedules exactly one more scroll callback, leaving the resize callbacks alone |
| `Timers.ResizeReplacesPending` | scripts/scroller.js:219-223 | a resize event cancels the previously stored resize callback and leaves only the new one pending, with its handle stored |
| `Timers.FireResizeClearsHandle` | scripts/scroller.js:214-217 | when the resize callback runs, `resizeTimeout` becomes null, no resize callback remains pending, and `didScroll` is cleared |
| `Timers.CancelledResizeNeverFires` | scripts/scroller.js:219-221 | a resize callback that was cancelled (or never armed) does not run and changes nothing |
| `Timers.ScrollBurst` | scripts/scroller.js:202-207 | any burst of scroll events has the effect of its first one and runs no re-evaluation |
| `Timers.ScrollBurstEvaluatesOnce` | scripts/scroller.js:202-207 | from a state with nothing scheduled, a burst of scroll events followed by any number of scroll callbacks runs exactly one re-evaluation |
| `Timers.ResizeBurst` | scripts/scroller.js:213-224 | after a burst of n resize events only the handle of the last one is pending and stored, and nothing has run |
| `Timers.ResizeBurstEvaluatesOnce` | scripts/scroller.js:213-224 | after a burst of n resize events, of the n callbacks armed only the last runs: exactly one re-evaluation, after which no handle is stored |
| `Timers.TwoScrollCallbacksCanBePending` | scripts/scroller.js:202-255 | the trace resize, scroll, resize callback, scroll from the idle state leaves two scroll callbacks pending. The delays allow this trace |
| `Controller.Seeded` | scripts/scroller.js:191-196 | after init a section carries `initial-state-of-section` exactly when it already did or it is not in view at factor 0; no other class changes |
| `Controller.Reevaluated` | scripts/scroller.js:243-252 | an in-view section gains `animate` and keeps every other class; a section not in view gains `initial-state-of-section`, loses `animate`, and keeps every other class |
| `Controller.SectionInView` | scripts/scroller.js:244 | scrollPage's test at the effective factor: at a numeric factor it is `InViewport` at that factor, so factor 0 behaves as the default; at a NaN factor no section is in view |
| `Controller.ReevaluatedIdempotent` | scripts/scroller.js:243-252 | re-evaluating a section twice with the same verdict equals re-evaluating it once |
| `Controller.InitialStateNeverRemoved` | scripts/scroller.js:244-250 | re-evaluation never removes `initial-state-of-section`, whatever the verdict |
| `Controller.PageAfterInit` | scripts/scroller.js:191-196 | init's class sets, section by section in query order: each is `Seeded` with its own factor-0 verdict |
| `Controller.PageAfterScroll` | scripts/scroller.js:243-252 | scrollPage's class sets, section by section: each is `Reevaluated` with its own verdict at the options' factor |
| `Controller.PageAfterScrollIdempotent` | scripts/scroller.js:240-255 | with unchanged layout and window readings a second scrollPage changes no class set |
| `Controller.StartStateKept` | scripts/scroller.js:243-252 | a section that carries `initial-state-of-section` keeps it through any sequence of re-evaluations |
| `Controller.StartStateSurvives` | scripts/scroller.js:191-252 | a section that init found out of view carries `initial-state-of-section` after any sequence of re-evaluations |
| `Controller.Section.Seed` | scripts/scroller.js:193-195 | one section's init step: its class set becomes `Seeded` of the old one, its layout is unchanged |
| `Controller.Section.Mark` | scripts/scroller.js:244-251 | one section's scrollPage step: its class set becomes `Reevaluated` of the old one, its layout is unchanged |
| `Controller.SeedAll` | scripts/scroller.js:191-196 | init's loop over the sections leaves their class sets equal to `PageAfterInit` of the old ones and their layouts unchanged |
| `Controller.MarkAll` | scripts/scroller.js:243-252 | scrollPage's loop over the sections leaves their class sets equal to `PageAfterScroll` of the old ones and their layouts unchanged |
| `Controller.Scroller.constructor` | scripts/scroller.js:151-171 | the options object is the fresh defaults object merged with the caller's options; init then runs, so the sections are the query result, their class sets are `PageAfterInit` of the old ones, and the timers are idle |
| `Controller.Scroller.Init` | scripts/scroller.js:179-196 | captures the sections in query order, clears `didScroll`, sets every class set to `PageAfterInit` of its old value, and leaves layouts, options and the other timer state alone |
| `Controller.Scroller.ScrollPage` | scripts/scroller.js:240-255 | every class set becomes `PageAfterScroll` of its old value at the options' factor; afterwards `didScroll` is false and nothing else changes |
| `Controller.Scroller.ScrollHandler` | scripts/scroller.js:202-207 | the timer state becomes `Step(old, Scroll)`; the invariant is kept; no section changes |
| `Controller.Scroller.ResizeHandler` | scripts/scroller.js:213-224 | the timer state becomes `Step(old, Resize)`, so the old callback is cancelled before the new one is armed; the invariant is kept |
| `Controller.Scroller.Delayed` | scripts/scroller.js:214-217 | re-evaluates every section like scrollPage, then sets `resizeTimeout` to null |
| `Controller.Scroller.RunScrollCallback` | scripts/scroller.js:205 | a pending scroll callback runs scrollPage and is removed; with none pending nothing changes |
| `Controller.Scroller.RunResizeCallback` | scripts/scroller.js:214-223 | a pending resize callback runs `delayed` and is removed; a cancelled one changes nothing |
| `Controller.Scroller.Dispatch` | scripts/scroller.js:202-224 | any event moves the timer state by `Timers.Step` and keeps the invariant; the class sets change, to `PageAfterScroll`, exactly when the event runs a pending callback |

## Left out

- The browser is not consulted. The window and document readings (`clientHeight`, `innerHeight`, `pageYOffset`, `scrollTop`), each element's `offsetTop`/`offsetLeft` chain and `offsetHeight` are parameters. The result of `querySelectorAll('.section')` is the constructor's `found` argument, so the container element itself is not kept.
- `window.addEventListener` (scripts/scroller.js:230-231) is not modelled. The handlers are methods that the scheduler, or `Dispatch`, calls.
- Real timing is not modelled. `setTimeout`/`clearTimeout` appear only through what they do to the pending callbacks, and the 60 ms and 200 ms delays are not represented: any pending callback may run next.
- The CSS animations the two classes trigger belong to the stylesheet.
- `height * viewportFactor` is exact real arithmetic, not IEEE floating point.
- Geometry.ScrollY: the `||` fallback is modelled for a zero `pageYOffset` only, because the offset is an integer here; an undefined or NaN `pageYOffset` is not represented.
- Options values: `undefined` is `Undefined`. Any other value that JavaScript arithmetic coerces to a number is represented by that number, and every value it coerces to NaN by `NonNumeric`. A `NonNumeric` factor behaves as NaN, so no section is in view during a re-evaluation. An `Undefined` factor gives way to `inViewport`'s default 0. Prototype properties and `hasOwnProperty` are not modelled: an options object is a finite map of own properties.
- The commented-out wrapper function, the commented-out global export and the commented-out Modernizr touch guard (scripts/scroller.js:1-2, 180, 261-263) are not part of this model.
- Layout is read once per pass. Each `init` or `scrollPage` pass reads one `Window` snapshot, and a section's layout stays fixed while its classes change. The model assumes that adding or removing a class never moves a section; the source re-reads the layout in every `inViewport` call. `PageAfterScrollIdempotent` relies on this assumption.
