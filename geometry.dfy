/**
 * Geometry utilities of scroller.js: the viewport height, the scroll offset and an
 * element's position relative to the whole document.
 *
 * The browser is not consulted: every reading the script takes from `window` or
 * `document` is a field of `Window`, and an element's `offsetTop`/`offsetLeft`
 * readings up its `offsetParent` chain are a sequence of `OffsetEntry` values.
 */
module Geometry {
  import opened Wrappers

  /** One snapshot of the window and document readings the script takes. */
  datatype Window = Window(
    clientHeight: int,   // document.documentElement.clientHeight
    innerHeight: int,    // window.innerHeight
    pageYOffset: int,    // window.pageYOffset
    scrollTop: int)      // document.documentElement.scrollTop

  /** The larger of the document's client height and the window's inner height. */
  function ViewportHeight(clientHeight: int, innerHeight: int): (h: int)
    ensures h >= clientHeight && h >= innerHeight
    ensures h == clientHeight || h == innerHeight
  {
    if clientHeight < innerHeight then innerHeight else clientHeight
  }

  /**
   * `pageYOffset || scrollTop`: the page offset, unless it is falsy (0), in which
   * case the root element's scroll position.
   */
  function ScrollY(pageYOffset: int, scrollTop: int): (y: int)
    ensures y == pageYOffset || y == scrollTop
    ensures pageYOffset != 0 ==> y == pageYOffset
    ensures pageYOffset == 0 ==> y == scrollTop
    ensures pageYOffset >= 0 && scrollTop >= 0 ==> y >= 0
  {
    if pageYOffset != 0 then pageYOffset else scrollTop
  }

  /** The offsets of one element of an offsetParent chain; None stands for NaN. */
  datatype OffsetEntry = OffsetEntry(top: Option<int>, left: Option<int>)

  /** The `{ top, left }` object getOffset returns. */
  datatype Offset = Offset(top: int, left: int)

  /** What one reading adds to a running sum: NaN readings add nothing. */
  function Contribution(x: Option<int>): int
  {
    if x.Some? then x.value else 0
  }

  /** The sum of the non-NaN readings of `xs`. */
  function KnownSum(xs: seq<Option<int>>): int
  {
    if xs == [] then 0 else KnownSum(xs[..|xs| - 1]) + Contribution(xs[|xs| - 1])
  }

  function Tops(chain: seq<OffsetEntry>): (ts: seq<Option<int>>)
    ensures |ts| == |chain| && forall i :: 0 <= i < |chain| ==> ts[i] == chain[i].top
  {
    seq(|chain|, i requires 0 <= i < |chain| => chain[i].top)
  }

  function Lefts(chain: seq<OffsetEntry>): (ls: seq<Option<int>>)
    ensures |ls| == |chain| && forall i :: 0 <= i < |chain| ==> ls[i] == chain[i].left
  {
    seq(|chain|, i requires 0 <= i < |chain| => chain[i].left)
  }

  /**
   * The document-relative position of the first element of `chain`, whose later
   * entries are its offsetParent ancestors: each coordinate is summed on its own.
   */
  function DocumentOffset(chain: seq<OffsetEntry>): Offset
  {
    Offset(KnownSum(Tops(chain)), KnownSum(Lefts(chain)))
  }

  /**
   * An element's document offset is its own offset (NaN counting as zero) plus
   * the document offset of its offsetParent, coordinate by coordinate.
   */
  lemma DocumentOffsetSplits(element: OffsetEntry, parents: seq<OffsetEntry>)
    ensures DocumentOffset([element] + parents).top == Contribution(element.top) + DocumentOffset(parents).top
    ensures DocumentOffset([element] + parents).left == Contribution(element.left) + DocumentOffset(parents).left
  {
    var chain := [element] + parents;
    assert Tops(chain) == [element.top] + Tops(parents);
    assert Lefts(chain) == [element.left] + Lefts(parents);
    KnownSumAppend([element.top], Tops(parents));
    KnownSumAppend([element.left], Lefts(parents));
    assert KnownSum([element.top]) == KnownSum([]) + Contribution(element.top);
    assert KnownSum([element.left]) == KnownSum([]) + Contribution(element.left);
  }

  lemma {:induction false} KnownSumAppend(a: seq<Option<int>>, b: seq<Option<int>>)
    ensures KnownSum(a + b) == KnownSum(a) + KnownSum(b)
    decreases |b|
  {
    if b == [] {
      assert a + b == a;
    } else {
      var b' := b[..|b| - 1];
      assert (a + b)[..|a + b| - 1] == a + b';
      KnownSumAppend(a, b');
    }
  }

  /** A NaN reading may be dropped from the chain without changing the sum. */
  lemma KnownSumSkipsNaN(xs: seq<Option<int>>, k: nat)
    requires k < |xs| && xs[k] == None
    ensures KnownSum(xs) == KnownSum(xs[..k] + xs[k + 1..])
  {
    assert xs == xs[..k] + [xs[k]] + xs[k + 1..];
    KnownSumAppend(xs[..k] + [xs[k]], xs[k + 1..]);
    KnownSumAppend(xs[..k], [xs[k]]);
    KnownSumAppend(xs[..k], xs[k + 1..]);
    assert KnownSum([xs[k]]) == KnownSum([]) + Contribution(xs[k]);
  }

  /** When no reading is NaN, the offset is the plain sum of the readings. */
  lemma {:induction false} KnownSumOfPresent(xs: seq<Option<int>>, vs: seq<int>)
    requires |xs| == |vs| && forall i :: 0 <= i < |xs| ==> xs[i] == Some(vs[i])
    ensures KnownSum(xs) == Sum(vs)
    decreases |xs|
  {
    if xs != [] {
      var n := |xs| - 1;
      KnownSumOfPresent(xs[..n], vs[..n]);
      SumSnoc(vs[..n], vs[n]);
      assert vs[..n] + [vs[n]] == vs;
    }
  }

  function Sum(vs: seq<int>): int
  {
    if vs == [] then 0 else vs[0] + Sum(vs[1..])
  }

  lemma {:induction false} SumSnoc(vs: seq<int>, v: int)
    ensures Sum(vs + [v]) == Sum(vs) + v
    decreases |vs|
  {
    if vs != [] {
      assert (vs + [v])[1..] == vs[1..] + [v];
      SumSnoc(vs[1..], v);
    }
  }

  /**
   * getOffset: walks the element and then each offsetParent in turn (a do-while
   * over a chain that always holds the element itself), adding the non-NaN
   * offsetTop and offsetLeft readings.
   */
  method GetOffset(element: OffsetEntry, parents: seq<OffsetEntry>) returns (offset: Offset)
    ensures offset == DocumentOffset([element] + parents)
  {
    ghost var chain := [element] + parents;
    var offsetTop, offsetLeft := 0, 0;
    var current := element;
    var i := 0;
    while true
      invariant 0 <= i <= |parents| && current == chain[i]
      invariant offsetTop == KnownSum(Tops(chain)[..i])
      invariant offsetLeft == KnownSum(Lefts(chain)[..i])
      decreases |parents| - i
    {
      if current.top.Some? {
        offsetTop := offsetTop + current.top.value;
      }
      if current.left.Some? {
        offsetLeft := offsetLeft + current.left.value;
      }
      assert Tops(chain)[..i + 1][..i] == Tops(chain)[..i];
      assert Lefts(chain)[..i + 1][..i] == Lefts(chain)[..i];
      if i == |parents| {
        assert Tops(chain)[..i + 1] == Tops(chain);
        assert Lefts(chain)[..i + 1] == Lefts(chain);
        break;
      }
      current := parents[i];
      i := i + 1;
    }
    offset := Offset(offsetTop, offsetLeft);
  }
}
