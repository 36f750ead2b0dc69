/** One page of the viewer on iOS as compiled in
    dist/components/ImageItem/ImageItem.ios.js: the image is fitted with
    `getImageTransform`, its zoom is capped by `maxScale`, its opacity fades
    with the vertical scroll offset, and presses go straight to the shared
    `useDoubleTapToZoom` handler when double-tap zoom is enabled. */
module ImageItemIosDist {
  import opened Common
  import Utils
  import DoubleTapToZoom
  import ImageItemIos

  const SwipeCloseOffset: real := 75.0

  /** `maxScale`: `max(1 / scale, 1)` for a positive fit scale, else 1. */
  function MaxScale(scale: real): (r: real)
    ensures r >= 1.0
  {
    if scale != 0.0 && scale > 0.0 then Max(1.0 / scale, 1.0) else 1.0
  }

  /** `scale || 1`: the fit scale, or 1 when it is 0. */
  function ScaleOrOne(scale: real): real {
    if scale != 0.0 then scale else 1.0
  }

  /** `imageOpacity`: `scrollValueY.interpolate` over the input range
      `[-75, 0, 75]` and output range `[0.5, 1, 0.5]`, extending the first
      segment below 0 and the second above. */
  function Opacity(offsetY: real): real {
    if offsetY <= 0.0 then 0.5 + (offsetY - (-SwipeCloseOffset)) / (0.0 - (-SwipeCloseOffset)) * (1.0 - 0.5)
    else 1.0 + (offsetY - 0.0) / (SwipeCloseOffset - 0.0) * (0.5 - 1.0)
  }

  /** The state of one mounted page. `scaleValue`, `translateValue` and
      `scrollValueY` are created anew by every render, so the first two
      always hold the current fit (the layout effect only writes the same
      values again) and the third starts again from 0 after each render;
      `onScroll` writes it without causing a render. The double-tap
      callback is memoised on `scaled` alone, so the `screen` it zooms
      against is `hookScreen`: the layout of the render in which `scaled`
      last changed (or of the first render). */
  class ImageItem {
    const doubleTapToZoomEnabled: bool
    const swipeToCloseEnabled: bool
    const hook: DoubleTapToZoom.TapClock
    var imageDimensions: Option<Dimensions>
    var layout: Dimensions
    var hookScreen: Dimensions
    var scaled: bool
    var scrollValueY: real
    var zoomSignals: seq<bool>
    var scrollResets: nat

    /** `getImageTransform` of the current image and layout. */
    function Fit(): Utils.Transform
      reads this
    {
      Utils.GetImageTransform(imageDimensions, layout)
    }

    /** The value the animated translate holds. */
    function TranslateValue(): Point
      reads this
    {
      Fit().translate
    }

    /** The value the animated scale holds: `scale || 1`. */
    function ScaleValue(): real
      reads this
    {
      ScaleOrOne(Fit().scale)
    }

    /** The zoom cap given to the scroll view. */
    function MaximumZoomScale(): real
      reads this
    {
      MaxScale(Fit().scale)
    }

    /** The first render followed by the mount run of the layout effect:
        the page is unscaled, so it scrolls to the origin. */
    constructor (imageDimensions: Option<Dimensions>, layout: Dimensions, hook: DoubleTapToZoom.TapClock,
                 doubleTapToZoomEnabled: bool, swipeToCloseEnabled: bool)
      ensures this.imageDimensions == imageDimensions && this.layout == layout && this.hook == hook
      ensures hookScreen == layout
      ensures this.doubleTapToZoomEnabled == doubleTapToZoomEnabled
      ensures this.swipeToCloseEnabled == swipeToCloseEnabled
      ensures !scaled && scrollValueY == 0.0 && zoomSignals == [] && scrollResets == 1
    {
      this.imageDimensions := imageDimensions;
      this.layout := layout;
      hookScreen := layout;
      this.hook := hook;
      this.doubleTapToZoomEnabled := doubleTapToZoomEnabled;
      this.swipeToCloseEnabled := swipeToCloseEnabled;
      scaled := false;
      scrollValueY := 0.0;
      zoomSignals := [];
      scrollResets := 1;
    }

    /** A render with a new `layout`: the animated values are created
        again, and when the width or height changed on an unscaled page the
        effect scrolls back to the origin. */
    method LayoutChanged(newLayout: Dimensions)
      modifies this
      ensures layout == newLayout && scrollValueY == 0.0
      ensures scrollResets == if newLayout != old(layout) && !scaled then old(scrollResets) + 1 else old(scrollResets)
      ensures imageDimensions == old(imageDimensions) && scaled == old(scaled)
      ensures zoomSignals == old(zoomSignals) && hookScreen == old(hookScreen)
    {
      if newLayout != layout && !scaled {
        scrollResets := scrollResets + 1;
      }
      layout := newLayout;
      scrollValueY := 0.0;
    }

    /** `onScrollEndDrag`: reports and stores whether the view is zoomed and
        may close. A change of `scaled` renders again, and when it turns
        false the layout effect scrolls back to the origin. */
    method OnScrollEndDrag(zoomScale: real, velocity: Option<real>) returns (close: bool)
      modifies this
      ensures scaled == (zoomScale > 1.0)
      ensures zoomSignals == old(zoomSignals) + [scaled]
      ensures close <==> ImageItemIos.DragRequestsClose(zoomScale, velocity, swipeToCloseEnabled)
      ensures scrollResets == if old(scaled) && !scaled then old(scrollResets) + 1 else old(scrollResets)
      ensures scrollValueY == if scaled != old(scaled) then 0.0 else old(scrollValueY)
      ensures hookScreen == if scaled != old(scaled) then layout else old(hookScreen)
      ensures imageDimensions == old(imageDimensions) && layout == old(layout)
    {
      var velocityY := if velocity.Some? then velocity.value else 0.0;
      var nowScaled := zoomScale > 1.0;
      zoomSignals := zoomSignals + [nowScaled];
      if nowScaled != scaled {
        scrollValueY := 0.0;
        hookScreen := layout;
        if !nowScaled {
          scrollResets := scrollResets + 1;
        }
      }
      scaled := nowScaled;
      close := !nowScaled && swipeToCloseEnabled && Abs(velocityY) > ImageItemIos.SwipeCloseVelocity;
    }

    /** A scroll event. `onScroll` is attached to the scroll view only when
        swipe-to-close is enabled, so otherwise the event changes nothing;
        when attached, the offset is ignored while zoomed and otherwise
        stored, a missing offset counting as 0. */
    method OnScroll(offsetY: Option<real>, zoomScale: real)
      modifies this
      ensures scrollValueY == if swipeToCloseEnabled && !(zoomScale > 1.0) then offsetY.GetOr(0.0) else old(scrollValueY)
      ensures !swipeToCloseEnabled ==> scrollValueY == old(scrollValueY)
      ensures imageDimensions == old(imageDimensions) && layout == old(layout) && scaled == old(scaled)
      ensures zoomSignals == old(zoomSignals) && scrollResets == old(scrollResets) && hookScreen == old(hookScreen)
    {
      if !swipeToCloseEnabled {
        return;
      }
      var y := if offsetY.Some? then offsetY.value else 0.0;
      if zoomScale > 1.0 {
        return;
      }
      scrollValueY := y;
    }

    /** A press: handled by the shared double-tap handler only when
        double-tap zoom is enabled, otherwise nothing happens. The handler
        zooms against `hookScreen`, the screen it captured. */
    method Press(now: int, page: Point) returns (zoomTo: Option<DoubleTapToZoom.Rect>)
      modifies hook
      ensures doubleTapToZoomEnabled ==>
        && hook.lastTapTS == DoubleTapToZoom.AfterTap(old(hook.lastTapTS), now)
        && (zoomTo.Some? <==> DoubleTapToZoom.IsDoubleTap(old(hook.lastTapTS), now))
        && (zoomTo.Some? ==> zoomTo.value == DoubleTapToZoom.ZoomRect(scaled, page, hookScreen))
      ensures !doubleTapToZoomEnabled ==> hook.lastTapTS == old(hook.lastTapTS) && zoomTo == None
    {
      zoomTo := None;
      if doubleTapToZoomEnabled {
        zoomTo := hook.HandleDoubleTap(now, page, scaled, hookScreen, true);
      }
    }
  }

  /** The zoom cap is at least 1, and for a fit that shrinks the image it
      is exactly what brings the image back to its natural size. */
  lemma {:induction false} MaxScaleUndoesShrinkingFit(scale: real)
    ensures MaxScale(scale) >= 1.0
    ensures 0.0 < scale <= 1.0 ==> MaxScale(scale) * scale == 1.0
    ensures scale >= 1.0 || scale <= 0.0 ==> MaxScale(scale) == 1.0
  {
    if 0.0 < scale {
      var q := 1.0 / scale;
      assert q * scale == 1.0;
      if scale <= 1.0 {
        MulAtMost(q, scale);
      } else {
        MulAtMost(scale, q);
      }
    }
  }

  /** A product of two positive factors that is 1 has a factor of at least
      1 for each factor of at most 1. */
  lemma MulAtMost(a: real, b: real)
    requires a > 0.0 && 0.0 < b <= 1.0 && a * b == 1.0
    ensures a >= 1.0
  {
    assert a * b <= a * 1.0;
  }

  /** The opacity is 1 at rest, 0.5 at a quarter-page swipe of 75 either
      way, and falls off linearly with the distance: `1 - |y| / 150`. */
  lemma {:induction false} OpacityFadesWithOffset(offsetY: real)
    ensures Opacity(offsetY) == 1.0 - Abs(offsetY) / 150.0
    ensures Opacity(0.0) == 1.0 && Opacity(SwipeCloseOffset) == 0.5 && Opacity(-SwipeCloseOffset) == 0.5
    ensures Opacity(-offsetY) == Opacity(offsetY)
  {
  }
}
