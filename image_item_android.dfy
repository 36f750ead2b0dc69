/** One page of the viewer on Android (src/components/ImageItem/ImageItem.android.tsx):
    a vertical scroll view for swipe-to-close around an image that zooms on
    double tap or pinch and pans while zoomed. */
module ImageItemAndroid {
  import opened Common

  const SwipeCloseOffset: real := 75.0
  const SwipeCloseVelocity: real := 1.75
  const DoubleTapThreshold: int := 300
  const MinScale: real := 1.0
  const MaxScale: real := 3.0

  /** `now - lastTapTimeRef.current < DOUBLE_TAP_THRESHOLD`. */
  predicate IsDoubleTap(lastTapTime: int, now: int) {
    now - lastTapTime < DoubleTapThreshold
  }

  /** The deferred single-tap check: `now - lastTapTimeRef.current >= DOUBLE_TAP_THRESHOLD`,
      with `now` the time captured by the tap that set the timer. */
  predicate SingleTapConfirmed(captured: int, lastTapTime: int) {
    captured - lastTapTime >= DoubleTapThreshold
  }

  /** `event.nativeEvent.velocity?.y || 0`. */
  function VelocityY(velocity: Option<real>): real {
    if velocity.Some? then velocity.value else 0.0
  }

  /** The close rule of `onScroll`: the offset is more than half a page from
      the centred position `layout.height`. */
  predicate ScrollRequestsClose(offsetY: real, height: real) {
    offsetY > height + height / 2.0 || offsetY < height - height / 2.0
  }

  /** The close rule of `onScrollEndDrag`: fast enough and more than
      `SWIPE_CLOSE_OFFSET` from the centred position. */
  predicate DragRequestsClose(offsetY: real, velocity: Option<real>, height: real) {
    Abs(VelocityY(velocity)) > SwipeCloseVelocity
    && (offsetY > height + SwipeCloseOffset || offsetY < height - SwipeCloseOffset)
  }

  /** The scale after a pinch step: the scale the handler sees times the
      ratio of the distances, clamped to `[1, 3]`. */
  function PinchScale(scale: real, currentDistance: real, previousDistance: real): (r: real)
    requires previousDistance != 0.0
    ensures MinScale <= r <= MaxScale
    ensures MinScale <= scale * (currentDistance / previousDistance) <= MaxScale
            ==> r == scale * (currentDistance / previousDistance)
  {
    Clamp(scale * (currentDistance / previousDistance), MinScale, MaxScale)
  }

  /** `onMoveShouldSetPanResponder`: two touches or a move of more than 10 px. */
  predicate ShouldClaimMove(numberActiveTouches: int, dx: real, dy: real) {
    numberActiveTouches == 2 || Abs(dx) > 10.0 || Abs(dy) > 10.0
  }

  /** `imageHeight`: the layout width scaled by the image's aspect ratio,
      or 80% of the layout height while the image size is unknown. */
  function ImageHeight(image: Dimensions, layout: Dimensions): real {
    if image.width > 0.0 && image.height > 0.0 then layout.width * (image.height / image.width)
    else layout.height * 0.8
  }

  /** The state of one mounted page. The scroll view is taken to be mounted,
      so `scrollViewRef.current` is set; `scrollY` is where it was last told
      to scroll and `innerScrollEnabled` its native `scrollEnabled`. */
  class ImageItem {
    const doubleTapToZoomEnabled: bool
    const swipeToCloseEnabled: bool
    const hasSingleTapHandler: bool
    var layout: Dimensions
    var scale: real
    var translateX: real
    var translateY: real
    var isZoomed: bool
    var lastTapTime: int
    var innerScrollEnabled: bool
    var scrollY: real
    /** `gestureState.previousPinchDistance`, kept on the pan responder's gesture state. */
    var previousPinchDistance: Option<real>
    /** Every `onZoom` call, oldest first. */
    var zoomSignals: seq<bool>

    ghost predicate Valid()
      reads this
    {
      MinScale <= scale <= MaxScale
    }

    /** The first render followed by the mount run of the layout effect,
        which calls `toggleZoom(false)` and scrolls to `layout.height`. */
    constructor (layout: Dimensions, doubleTapToZoomEnabled: bool, swipeToCloseEnabled: bool, hasSingleTapHandler: bool)
      ensures Valid()
      ensures this.layout == layout && this.doubleTapToZoomEnabled == doubleTapToZoomEnabled
      ensures this.swipeToCloseEnabled == swipeToCloseEnabled && this.hasSingleTapHandler == hasSingleTapHandler
      ensures scale == 1.0 && translateX == 0.0 && translateY == 0.0 && !isZoomed
      ensures lastTapTime == 0 && innerScrollEnabled && scrollY == layout.height
      ensures previousPinchDistance == None && zoomSignals == [false]
    {
      this.layout := layout;
      this.doubleTapToZoomEnabled := doubleTapToZoomEnabled;
      this.swipeToCloseEnabled := swipeToCloseEnabled;
      this.hasSingleTapHandler := hasSingleTapHandler;
      scale := 1.0;
      translateX := 0.0;
      translateY := 0.0;
      isZoomed := false;
      lastTapTime := 0;
      innerScrollEnabled := true;
      scrollY := layout.height;
      previousPinchDistance := None;
      zoomSignals := [false];
    }

    /** `toggleZoom(zoomed)`: store the zoom state, report it through
        `onZoom` on every call, and let the scroll view scroll only when
        not zoomed. */
    method ToggleZoom(zoomed: bool)
      modifies this
      ensures isZoomed == zoomed && zoomSignals == old(zoomSignals) + [zoomed]
      ensures innerScrollEnabled == !zoomed
      ensures layout == old(layout) && scale == old(scale)
      ensures translateX == old(translateX) && translateY == old(translateY)
      ensures lastTapTime == old(lastTapTime) && scrollY == old(scrollY)
      ensures previousPinchDistance == old(previousPinchDistance)
    {
      isZoomed := zoomed;
      zoomSignals := zoomSignals + [zoomed];
      innerScrollEnabled := !zoomed;
    }

    /** A render with a new `layout`: when its width or height changed, the
        effect un-zooms, resets scale and translate and scrolls back to the
        centred position. */
    method LayoutChanged(newLayout: Dimensions)
      requires Valid()
      modifies this
      ensures Valid()
      ensures layout == newLayout
      ensures newLayout != old(layout) ==>
        && scale == 1.0 && translateX == 0.0 && translateY == 0.0
        && !isZoomed && innerScrollEnabled && zoomSignals == old(zoomSignals) + [false]
        && scrollY == newLayout.height
      ensures newLayout == old(layout) ==>
        && scale == old(scale) && translateX == old(translateX) && translateY == old(translateY)
        && isZoomed == old(isZoomed) && innerScrollEnabled == old(innerScrollEnabled)
        && zoomSignals == old(zoomSignals) && scrollY == old(scrollY)
      ensures lastTapTime == old(lastTapTime)
      ensures previousPinchDistance == old(previousPinchDistance)
    {
      if newLayout != layout {
        layout := newLayout;
        ToggleZoom(false);
        scale := 1.0;
        translateX := 0.0;
        translateY := 0.0;
        scrollY := newLayout.height;
      }
    }

    /** `handleTap` at time `now`. A double tap toggles the zoom when that is
        enabled (scale 2 when zooming in, 1 when out); any other tap starts
        the single-tap timer, reported as `timerStarted`. Every tap records
        its time. */
    method Tap(now: int) returns (timerStarted: bool)
      requires Valid()
      modifies this
      ensures Valid()
      ensures lastTapTime == now
      ensures timerStarted <==> !IsDoubleTap(old(lastTapTime), now)
      ensures IsDoubleTap(old(lastTapTime), now) && doubleTapToZoomEnabled ==>
        && isZoomed == !old(isZoomed) && scale == (if isZoomed then 2.0 else 1.0)
        && zoomSignals == old(zoomSignals) + [isZoomed] && innerScrollEnabled == !isZoomed
      ensures !(IsDoubleTap(old(lastTapTime), now) && doubleTapToZoomEnabled) ==>
        && isZoomed == old(isZoomed) && scale == old(scale)
        && zoomSignals == old(zoomSignals) && innerScrollEnabled == old(innerScrollEnabled)
      ensures layout == old(layout) && translateX == old(translateX) && translateY == old(translateY)
      ensures scrollY == old(scrollY)
      ensures previousPinchDistance == old(previousPinchDistance)
    {
      timerStarted := false;
      if now - lastTapTime < DoubleTapThreshold {
        if doubleTapToZoomEnabled {
          var newZoomState := !isZoomed;
          ToggleZoom(newZoomState);
          if newZoomState {
            scale := 2.0;
          } else {
            scale := 1.0;
          }
        }
      } else {
        timerStarted := true;
      }
      lastTapTime := now;
    }

    /** The single-tap timer of the tap at time `captured` fires: `onSingleTap`
        is called (`singleTap`) when the recorded last tap is at least the
        threshold older than `captured` and a handler was given. */
    method SingleTapTimerFires(captured: int) returns (singleTap: bool)
      ensures singleTap <==> SingleTapConfirmed(captured, lastTapTime) && hasSingleTapHandler
    {
      singleTap := captured - lastTapTime >= DoubleTapThreshold && hasSingleTapHandler;
    }

    /** `onScroll` with the vertical offset; `close` is a call of
        `onRequestClose`. The animated value it writes is created anew by
        every render and read by nothing, so the page's state is unchanged. */
    method OnScroll(offsetY: real) returns (close: bool)
      ensures close <==> swipeToCloseEnabled && ScrollRequestsClose(offsetY, layout.height)
    {
      close := false;
      if swipeToCloseEnabled {
        if offsetY > layout.height + layout.height / 2.0 || offsetY < layout.height - layout.height / 2.0 {
          close := true;
        }
      }
    }

    /** `onScrollEndDrag`: close when the drag was fast and far enough,
        otherwise scroll back to the centred position. */
    method OnScrollEndDrag(offsetY: real, velocity: Option<real>) returns (close: bool)
      modifies this
      ensures close <==> swipeToCloseEnabled && DragRequestsClose(offsetY, velocity, layout.height)
      ensures scrollY == if swipeToCloseEnabled && !close then layout.height else old(scrollY)
      ensures layout == old(layout) && scale == old(scale) && isZoomed == old(isZoomed)
      ensures translateX == old(translateX) && translateY == old(translateY)
      ensures lastTapTime == old(lastTapTime) && innerScrollEnabled == old(innerScrollEnabled)
      ensures zoomSignals == old(zoomSignals)
      ensures previousPinchDistance == old(previousPinchDistance)
    {
      close := false;
      if !swipeToCloseEnabled {
        return;
      }
      var velocityY := Abs(if velocity.Some? then velocity.value else 0.0);
      if velocityY > SwipeCloseVelocity
        && (offsetY > layout.height + SwipeCloseOffset || offsetY < layout.height - SwipeCloseOffset)
      {
        close := true;
      } else {
        scrollY := layout.height;
      }
    }

    /** `onPanResponderMove`. The responder is created once, so its handler
        sees the first render's `scale` and `isZoomed`: they come in as
        `capturedScale` and `capturedZoomed`. `pinchDistance` is the distance
        between the first two touches, `None` when there are fewer than two. */
    method Move(numberActiveTouches: int, pinchDistance: Option<real>, dx: real, dy: real,
                capturedScale: real, capturedZoomed: bool)
      requires Valid() && capturedScale > 0.0
      modifies this
      ensures Valid()
      ensures layout == old(layout) && lastTapTime == old(lastTapTime)
      ensures scrollY == old(scrollY)
      ensures numberActiveTouches == 2 && pinchDistance.Some? ==>
        && previousPinchDistance == pinchDistance
        && translateX == old(translateX) && translateY == old(translateY)
        && (if old(previousPinchDistance).Some? && old(previousPinchDistance).value != 0.0 then
              && scale == PinchScale(capturedScale, pinchDistance.value, old(previousPinchDistance).value)
              && isZoomed == (scale > 1.0) && zoomSignals == old(zoomSignals) + [scale > 1.0]
              && innerScrollEnabled == !isZoomed
            else
              && scale == old(scale) && isZoomed == old(isZoomed)
              && zoomSignals == old(zoomSignals) && innerScrollEnabled == old(innerScrollEnabled))
      ensures numberActiveTouches == 2 && pinchDistance.None? ==>
        && previousPinchDistance == old(previousPinchDistance)
        && translateX == old(translateX) && translateY == old(translateY)
      ensures numberActiveTouches != 2 ==>
        && previousPinchDistance == old(previousPinchDistance)
        && Point(translateX, translateY)
           == PanTranslate(numberActiveTouches, capturedZoomed, capturedScale, Point(old(translateX), old(translateY)), dx, dy)
      ensures !(numberActiveTouches == 2 && pinchDistance.Some?) ==>
        && scale == old(scale) && isZoomed == old(isZoomed)
        && zoomSignals == old(zoomSignals) && innerScrollEnabled == old(innerScrollEnabled)
    {
      if numberActiveTouches == 2 {
        if pinchDistance.Some? {
          var currentDistance := pinchDistance.value;
          if previousPinchDistance.Some? && previousPinchDistance.value != 0.0 {
            var newScale := Min(Max(capturedScale * (currentDistance / previousPinchDistance.value), MinScale), MaxScale);
            scale := newScale;
            if newScale > 1.0 {
              ToggleZoom(true);
            } else {
              ToggleZoom(false);
            }
          }
          previousPinchDistance := Some(currentDistance);
        }
      } else if capturedZoomed && numberActiveTouches == 1 {
        translateX := translateX + dx / capturedScale;
        translateY := translateY + dy / capturedScale;
      }
    }
  }

  /** For each tap of a run, whether it is a double tap; every tap records
      its time, so each is compared with the one before it. */
  function DoubleTaps(lastTapTime: int, taps: seq<int>): (flags: seq<bool>)
    ensures |flags| == |taps|
    decreases |taps|
  {
    if |taps| == 0 then []
    else [IsDoubleTap(lastTapTime, taps[0])] + DoubleTaps(taps[0], taps[1..])
  }

  /** After the first, a tap of a run is a double tap exactly when it comes
      less than the threshold after the tap before it, whatever happened
      earlier; so three taps each within 300 ms of the previous one give
      two double taps. */
  lemma {:induction false} DoubleTapComparesWithPreviousTap(lastTapTime: int, taps: seq<int>, i: int)
    requires 0 < i < |taps|
    ensures DoubleTaps(lastTapTime, taps)[i] <==> taps[i] - taps[i - 1] < DoubleTapThreshold
    decreases |taps|
  {
    if i > 1 {
      DoubleTapComparesWithPreviousTap(taps[0], taps[1..], i - 1);
    }
    assert DoubleTaps(lastTapTime, taps)[i] == DoubleTaps(taps[0], taps[1..])[i - 1];
  }

  /** Three quick taps: the second and the third are double taps. */
  lemma {:induction false} ThreeQuickTapsGiveTwoDoubles(lastTapTime: int, t1: int, t2: int, t3: int)
    requires t2 - t1 < DoubleTapThreshold && t3 - t2 < DoubleTapThreshold
    ensures DoubleTaps(lastTapTime, [t1, t2, t3])[1] && DoubleTaps(lastTapTime, [t1, t2, t3])[2]
  {
    DoubleTapComparesWithPreviousTap(lastTapTime, [t1, t2, t3], 1);
    DoubleTapComparesWithPreviousTap(lastTapTime, [t1, t2, t3], 2);
  }

  /** The recorded last-tap time after the tap at `captured` and the taps
      that follow it before its timer fires. */
  function LastTapBeforeTimer(captured: int, laterTaps: seq<int>): int {
    if |laterTaps| == 0 then captured else laterTaps[|laterTaps| - 1]
  }

  /** The single tap is never confirmed: the tap itself recorded `captured`
      as the last tap, and with a clock that does not go back every later
      tap records a time no earlier, so the check `captured - lastTap >= 300`
      fails. */
  lemma {:induction false} SingleTapNeverConfirmed(captured: int, laterTaps: seq<int>)
    requires forall i :: 0 <= i < |laterTaps| ==> laterTaps[i] >= captured
    ensures !SingleTapConfirmed(captured, LastTapBeforeTimer(captured, laterTaps))
  {
    if |laterTaps| > 0 {
      assert laterTaps[|laterTaps| - 1] >= captured;
    }
  }

  /** Resting at the centred position `layout.height` never requests a close. */
  lemma CentredPositionNeverCloses(height: real, velocity: Option<real>)
    requires height > 0.0
    ensures !ScrollRequestsClose(height, height)
    ensures !DragRequestsClose(height, velocity, height)
  {
  }

  /** A drag without enough speed, or with no velocity reported, never closes. */
  lemma SlowDragNeverCloses(offsetY: real, velocity: Option<real>, height: real)
    requires velocity.None? || Abs(velocity.value) <= SwipeCloseVelocity
    ensures !DragRequestsClose(offsetY, velocity, height)
  {
  }

  /** On a page taller than twice `SWIPE_CLOSE_OFFSET`, an offset at which
      `onScroll` closes is also far enough for `onScrollEndDrag`. */
  lemma ScrollCloseImpliesDragDistance(offsetY: real, height: real)
    requires height > 2.0 * SwipeCloseOffset && ScrollRequestsClose(offsetY, height)
    ensures offsetY > height + SwipeCloseOffset || offsetY < height - SwipeCloseOffset
  {
  }

  /** A pinch zooms in exactly when the clamped scale exceeds 1: pinching
      out from scale 1 zooms in, and no pinch can pass 3 or go below 1. */
  lemma {:induction false} PinchZoomsInWhenSpreading(scale: real, currentDistance: real, previousDistance: real)
    requires scale >= 1.0 && previousDistance > 0.0 && currentDistance > previousDistance
    ensures PinchScale(scale, currentDistance, previousDistance) > 1.0
  {
    var ratio := currentDistance / previousDistance;
    assert ratio > 1.0 by {
      assert ratio * previousDistance == currentDistance;
      if ratio <= 1.0 {
        MulLe(ratio, 1.0, previousDistance);
      }
    }
    MulLe(1.0, scale, ratio);
  }

  /** A two-finger move is always claimed; any other move is claimed exactly
      when it leaves the 20 px square around its start, however many
      fingers it has. */
  lemma {:induction false} MoveClaimRule(numberActiveTouches: int, dx: real, dy: real)
    ensures numberActiveTouches == 2 ==> ShouldClaimMove(numberActiveTouches, dx, dy)
    ensures numberActiveTouches != 2 ==>
      (ShouldClaimMove(numberActiveTouches, dx, dy) <==> !(-10.0 <= dx <= 10.0 && -10.0 <= dy <= 10.0))
  {
  }

  /** The translate a non-pinch move leaves, from `at`: a one-finger move
      pans by the gesture divided by the scale when the closure sees a
      zoomed page; any other move leaves it where it was. */
  function PanTranslate(numberActiveTouches: int, capturedZoomed: bool, capturedScale: real,
                        at: Point, dx: real, dy: real): Point
    requires capturedScale != 0.0
  {
    if capturedZoomed && numberActiveTouches == 1 then Point(at.x + dx / capturedScale, at.y + dy / capturedScale)
    else at
  }

  /** The responder is created once, so its closure sees the first
      render's `isZoomed`, which is false: a one-finger drag past 10 px is
      claimed, yet it never moves the image. Only a closure that saw a
      zoomed page would pan, by the drag over the scale. */
  lemma {:induction false} OneFingerDragNeverPans(capturedScale: real, at: Point, dx: real, dy: real)
    requires capturedScale > 0.0
    ensures Abs(dx) > 10.0 || Abs(dy) > 10.0 ==> ShouldClaimMove(1, dx, dy)
    ensures PanTranslate(1, false, capturedScale, at, dx, dy) == at
    ensures PanTranslate(1, true, capturedScale, at, dx, dy).x * capturedScale == at.x * capturedScale + dx
    ensures PanTranslate(1, true, capturedScale, at, dx, dy).y * capturedScale == at.y * capturedScale + dy
  {
    var p := PanTranslate(1, true, capturedScale, at, dx, dy);
    assert (dx / capturedScale) * capturedScale == dx;
    assert (dy / capturedScale) * capturedScale == dy;
    assert p.x * capturedScale == at.x * capturedScale + (dx / capturedScale) * capturedScale;
    assert p.y * capturedScale == at.y * capturedScale + (dy / capturedScale) * capturedScale;
  }

  /** With known image dimensions the displayed height keeps the image's
      aspect ratio at the layout's width; otherwise it is 80% of the layout height. */
  lemma {:induction false} ImageHeightKeepsAspect(image: Dimensions, layout: Dimensions)
    ensures image.width > 0.0 && image.height > 0.0 ==>
      ImageHeight(image, layout) * image.width == layout.width * image.height
    ensures !(image.width > 0.0 && image.height > 0.0) ==>
      ImageHeight(image, layout) == layout.height * 0.8
  {
    if image.width > 0.0 && image.height > 0.0 {
      var q := image.height / image.width;
      assert q * image.width == image.height;
      assert (layout.width * q) * image.width == layout.width * (q * image.width);
    }
  }
}
