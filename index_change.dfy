/** `useImageIndexChange` (src/hooks/useImageIndexChange.ts): the pager's
    current image index, started at the `imageIndex` argument and recomputed
    by `onScroll` from the horizontal scroll offset. */
module ImageIndexChange {
  import opened Common

  /** `Math.round(scrollX / width)`: the page whose left edge is nearest to the offset. */
  function NearestPage(scrollX: real, width: real): int
    requires width != 0.0
  {
    Round(scrollX / width)
  }

  /** The index after `onScroll`: unchanged while the width is 0, otherwise
      the nearest page with negative pages clamped to 0. */
  function ScrolledIndex(current: int, scrollX: real, width: real): (r: int)
    ensures width == 0.0 ==> r == current
    ensures width != 0.0 ==> r >= 0
  {
    if width == 0.0 then current
    else
      var next := NearestPage(scrollX, width);
      if next < 0 then 0 else next
  }

  /** The hook's state: `currentImageIndex`. */
  class IndexTracker {
    var currentImageIndex: int

    /** `useState(imageIndex)`. */
    constructor (imageIndex: int)
      ensures currentImageIndex == imageIndex
    {
      currentImageIndex := imageIndex;
    }

    /** `onScroll` with the event's `contentOffset.x` and the screen width. */
    method OnScroll(scrollX: real, screenWidth: real)
      modifies this
      ensures currentImageIndex == ScrolledIndex(old(currentImageIndex), scrollX, screenWidth)
    {
      if screenWidth != 0.0 {
        var nextIndex := Round(scrollX / screenWidth);
        currentImageIndex := if nextIndex < 0 then 0 else nextIndex;
      }
    }
  }

  lemma MulStrict(a: real, b: real, w: real)
    requires w > 0.0 && a < b
    ensures a * w < b * w
  {
  }

  /** For a positive width, `lo <= x / w < hi` follows from `lo * w <= x < hi * w`. */
  lemma {:induction false} QuotientBetween(x: real, w: real, lo: real, hi: real)
    requires w > 0.0 && lo * w <= x < hi * w
    ensures lo <= x / w < hi
  {
    var q := x / w;
    assert q * w == x;
    if q < lo {
      MulStrict(q, lo, w);
    }
    if q >= hi {
      if q > hi {
        MulStrict(hi, q, w);
      }
    }
  }

  /** Any offset within half a page of page `k`'s left edge (half rounded
      up) selects page `k`; there is no upper bound on `k`, so the index is
      not limited by the number of images. */
  lemma {:induction false} OffsetNearPageSelectsIt(current: int, k: int, scrollX: real, width: real)
    requires width > 0.0 && k >= 0
    requires (k as real - 0.5) * width <= scrollX < (k as real + 0.5) * width
    ensures ScrolledIndex(current, scrollX, width) == k
  {
    QuotientBetween(scrollX, width, k as real - 0.5, k as real + 0.5);
    RoundUnique(scrollX / width, k);
  }

  /** An offset of exactly `k` page widths selects page `k`. */
  lemma {:induction false} ExactPageOffset(current: int, k: int, width: real)
    requires width > 0.0 && k >= 0
    ensures ScrolledIndex(current, k as real * width, width) == k
  {
    MulStrict(k as real - 0.5, k as real, width);
    MulStrict(k as real, k as real + 0.5, width);
    OffsetNearPageSelectsIt(current, k, k as real * width, width);
  }

  /** An offset more than half a page left of the first page is clamped to page 0. */
  lemma {:induction false} NegativeOffsetClampsToFirst(current: int, scrollX: real, width: real)
    requires width > 0.0 && scrollX < -0.5 * width
    ensures ScrolledIndex(current, scrollX, width) == 0
  {
    QuotientBetween(scrollX, width, scrollX / width, -0.5);
  }
}

/** `useImageIndexChange` as compiled in dist/hooks/useImageIndexChange.js:
    the index also follows later changes of the `imageIndex` prop, the page
    width comes from the scroll event's `layoutMeasurement`, and the state
    is written only when the nearest page is not negative and differs from
    the current index. */
module ImageIndexChangeDist {
  import opened Common
  import ImageIndexChange

  /** The index after `onScroll`: a zero width or a negative nearest page
      leaves it unchanged. */
  function ScrolledIndex(current: int, scrollX: real, layoutWidth: real): (r: int)
    ensures layoutWidth == 0.0 ==> r == current
    ensures r == current || r >= 0
  {
    if layoutWidth == 0.0 then current
    else
      var next := ImageIndexChange.NearestPage(scrollX, layoutWidth);
      if next >= 0 && next != current then next else current
  }

  /** The hook's state: `currentImageIndex` and the last `imageIndex` prop seen. */
  class IndexTracker {
    var currentImageIndex: int
    var imageIndex: int

    /** `useState(imageIndex)`; the mount run of the effect sets the same value. */
    constructor (imageIndex: int)
      ensures currentImageIndex == imageIndex && this.imageIndex == imageIndex
    {
      currentImageIndex := imageIndex;
      this.imageIndex := imageIndex;
    }

    /** A render with a (possibly new) `imageIndex` prop: the effect keyed on
        `[imageIndex]` runs only when it changed, and then resets the index. */
    method Render(newImageIndex: int)
      modifies this
      ensures imageIndex == newImageIndex
      ensures currentImageIndex
           == if newImageIndex != old(imageIndex) then newImageIndex else old(currentImageIndex)
    {
      if newImageIndex != imageIndex {
        currentImageIndex := newImageIndex;
      }
      imageIndex := newImageIndex;
    }

    /** `onScroll` with `contentOffset.x` and `layoutMeasurement.width`;
        `updated` tells whether `setImageIndex` was called. */
    method OnScroll(scrollX: real, layoutWidth: real) returns (updated: bool)
      modifies this
      ensures imageIndex == old(imageIndex)
      ensures currentImageIndex == ScrolledIndex(old(currentImageIndex), scrollX, layoutWidth)
      ensures updated <==> currentImageIndex != old(currentImageIndex)
    {
      updated := false;
      if layoutWidth != 0.0 {
        var nextIndex := Round(scrollX / layoutWidth);
        if nextIndex >= 0 && nextIndex != currentImageIndex {
          currentImageIndex := nextIndex;
          updated := true;
        }
      }
    }
  }

  /** Where the nearest page is not negative, both variants of `onScroll`
      move to it. */
  lemma {:induction false} AgreesWithSourceOnPages(current: int, scrollX: real, width: real)
    requires width != 0.0 && ImageIndexChange.NearestPage(scrollX, width) >= 0
    ensures ScrolledIndex(current, scrollX, width)
         == ImageIndexChange.ScrolledIndex(current, scrollX, width)
         == ImageIndexChange.NearestPage(scrollX, width)
  {
  }

  /** Where the nearest page is negative, this variant keeps the current
      index while the src variant clamps to 0. */
  lemma {:induction false} KeepsIndexOnNegativePage(current: int, scrollX: real, width: real)
    requires width != 0.0 && ImageIndexChange.NearestPage(scrollX, width) < 0
    ensures ScrolledIndex(current, scrollX, width) == current
    ensures ImageIndexChange.ScrolledIndex(current, scrollX, width) == 0
  {
  }

  /** Scrolling twice to the same offset with the same width changes the
      index at most once. */
  lemma {:induction false} ScrollIsIdempotent(current: int, scrollX: real, width: real)
    ensures var once := ScrolledIndex(current, scrollX, width);
      ScrolledIndex(once, scrollX, width) == once
  {
  }
}
