/**
 * The viewport test inViewport of scroller.js, over exact real arithmetic.
 *
 * An element counts as in view when the part of it that the factor asks for has
 * come above the visible bottom, and it has not been scrolled entirely past.
 */
module Viewport {
  import opened Wrappers
  import opened Geometry

  /** The layout readings of one element: its offset chain and its offsetHeight. */
  datatype Layout = Layout(element: OffsetEntry, parents: seq<OffsetEntry>, offsetHeight: int)

  function Scrolled(w: Window): int
  {
    ScrollY(w.pageYOffset, w.scrollTop)
  }

  /** The document y-coordinate of the bottom edge of the visible area. */
  function Viewed(w: Window): int
  {
    Scrolled(w) + ViewportHeight(w.clientHeight, w.innerHeight)
  }

  function ElementTop(g: Layout): int
  {
    DocumentOffset([g.element] + g.parents).top
  }

  function ElementBottom(g: Layout): int
  {
    ElementTop(g) + g.offsetHeight
  }

  /**
   * inViewport(element, viewportFactor = 0). An element in view has not been
   * scrolled past, and, for a non-negative height and factor, its top is at or
   * above the visible bottom.
   */
  function InViewport(w: Window, g: Layout, viewportFactor: real := 0.0): (inView: bool)
    ensures inView ==> ElementBottom(g) >= Scrolled(w)
    ensures inView && g.offsetHeight >= 0 && viewportFactor >= 0.0 ==> ElementTop(g) <= Viewed(w)
  {
    (ElementTop(g) as real + g.offsetHeight as real * viewportFactor) <= Viewed(w) as real
    && ElementBottom(g) >= Scrolled(w)
  }

  /** An element whose top lies below the visible bottom is never in view. */
  lemma BelowViewportNeverInView(w: Window, g: Layout, f: real)
    requires g.offsetHeight >= 0 && f >= 0.0
    requires ElementTop(g) > Viewed(w)
    ensures !InViewport(w, g, f)
  {
  }

  /** An element scrolled entirely past the top of the viewport is never in view. */
  lemma AboveViewportNeverInView(w: Window, g: Layout, f: real)
    requires ElementBottom(g) < Scrolled(w)
    ensures !InViewport(w, g, f)
  {
  }

  /**
   * Raising the factor can only make the test harder: in view at f' implies in
   * view at every smaller f, and out of view at f implies out of view at every
   * larger f'.
   */
  lemma InViewportAntitone(w: Window, g: Layout, f: real, f': real)
    requires g.offsetHeight >= 0 && f <= f'
    ensures InViewport(w, g, f') ==> InViewport(w, g, f)
    ensures !InViewport(w, g, f) ==> !InViewport(w, g, f')
  {
  }

  /** With the default factor 0, any overlap with the visible area counts. */
  lemma DefaultFactorMeansOverlap(w: Window, g: Layout)
    ensures InViewport(w, g) <==> ElementTop(g) <= Viewed(w) && ElementBottom(g) >= Scrolled(w)
  {
  }

  /** With factor 1 the whole element must be above the visible bottom. */
  lemma FullFactorMeansWhollyAbove(w: Window, g: Layout)
    ensures InViewport(w, g, 1.0) <==> ElementBottom(g) <= Viewed(w) && ElementBottom(g) >= Scrolled(w)
  {
  }

  /**
   * A section at document y = 2000, 100 pixels high, in an 800-pixel viewport
   * scrolled to 1250, is in view at factor 0.3 (2030 <= 2050 and 2100 >= 1250).
   */
  lemma WorkedExample()
    ensures InViewport(Window(800, 800, 1250, 1250),
                       Layout(OffsetEntry(Some(2000), Some(0)), [], 100), 0.3)
  {
    var g := Layout(OffsetEntry(Some(2000), Some(0)), [], 100);
    assert Tops([g.element] + g.parents) == [Some(2000)];
    assert KnownSum([Some(2000)]) == KnownSum([]) + 2000;
  }
}
