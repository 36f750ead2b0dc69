/** One page of the viewer on iOS (src/components/ImageItem/ImageItem.ios.tsx):
    a zoomable scroll view whose presses are told apart as single or double
    taps by time and position, a double tap being passed on to the shared
    `useDoubleTapToZoom` handler, and whose drag end may close the viewer. */
module ImageItemIos {
  import opened Common
  import DoubleTapToZoom

  const SwipeCloseVelocity: real := 1.55
  const DoubleTapDelay: int := 300
  const DoubleTapRadius: real := 20.0
  /** An image whose aspect ratio is below this is treated as tall. */
  const TallAspectRatio: real := 0.7

  /** `isDoubleTap`: a recorded non-zero last tap less than the delay ago,
      at a recorded position less than the radius away on both axes. */
  predicate PressIsDouble(lastTap: int, lastTapPosition: Option<Point>, now: int, position: Point) {
    && lastTap > 0
    && now - lastTap < DoubleTapDelay
    && lastTapPosition.Some?
    && Abs(position.x - lastTapPosition.value.x) < DoubleTapRadius
    && Abs(position.y - lastTapPosition.value.y) < DoubleTapRadius
  }

  /** The tap state a press reads and writes: the page's `lastTapRef` and
      `lastTapPositionRef`, and the hook's module-level `lastTapTS`. */
  datatype PressState = PressState(lastTap: int, lastTapPosition: Option<Point>, hookTapTS: Option<int>)

  /** The tap state after a press at `now` and `position`: a double tap
      clears the page's record and, when zoom is enabled, goes on to the
      hook; any other press records its time and position. */
  function AfterPress(s: PressState, now: int, position: Point, zoomEnabled: bool): PressState {
    if PressIsDouble(s.lastTap, s.lastTapPosition, now, position) then
      PressState(0, None, if zoomEnabled then DoubleTapToZoom.AfterTap(s.hookTapTS, now) else s.hookTapTS)
    else
      PressState(now, Some(position), s.hookTapTS)
  }

  /** Whether a press makes the hook zoom: a double tap for the page that
      is also a double tap for the hook, with zoom enabled. */
  predicate PressZooms(s: PressState, now: int, position: Point, zoomEnabled: bool) {
    PressIsDouble(s.lastTap, s.lastTapPosition, now, position)
    && zoomEnabled && DoubleTapToZoom.IsDoubleTap(s.hookTapTS, now)
  }

  /** The single-tap timer of the press at `captured` calls `onSingleTap`
      when `lastTapRef` still holds `captured`. */
  predicate SingleTapConfirmed(captured: int, lastTap: int) {
    lastTap == captured
  }

  /** The close rule of `onScrollEndDrag`: not zoomed, swipe enabled and a
      vertical speed above `SWIPE_CLOSE_VELOCITY`; no offset is checked. */
  predicate DragRequestsClose(zoomScale: real, velocity: Option<real>, swipeToCloseEnabled: bool) {
    !(zoomScale > 1.0) && swipeToCloseEnabled
    && Abs(if velocity.Some? then velocity.value else 0.0) > SwipeCloseVelocity
  }

  /** `aspectRatio`: width over height, or 1 while either is 0. */
  function AspectRatio(image: Dimensions): (r: real)
    ensures r != 0.0
  {
    if image.width != 0.0 && image.height != 0.0 then image.width / image.height else 1.0
  }

  /** `imageWidth` and `imageHeight`: a tall image takes the largest height
      up to 95% of the layout that its width allows; any other image takes
      the full layout width. */
  function DisplaySize(image: Dimensions, layout: Dimensions): Dimensions {
    var aspect := AspectRatio(image);
    if aspect < TallAspectRatio then
      var h := Min(layout.height * 0.95, layout.width / aspect);
      Dimensions(h * aspect, h)
    else
      Dimensions(layout.width, layout.width / aspect)
  }

  /** The state of one mounted page. `hook` is the module-level timestamp of
      `useDoubleTapToZoom`, shared with every other page; `scrollResets`
      counts the `scrollTo({x: 0, y: 0})` calls of the layout effect.
      The hook's callback is memoised on `scaled` alone, so the `screen` it
      zooms against is `hookScreen`: the layout of the render in which
      `scaled` last changed (or of the first render), not necessarily the
      current one. */
  class ImageItem {
    const doubleTapToZoomEnabled: bool
    const swipeToCloseEnabled: bool
    const hasSingleTapHandler: bool
    const hook: DoubleTapToZoom.TapClock
    var layout: Dimensions
    var hookScreen: Dimensions
    var scaled: bool
    var lastTap: int
    var lastTapPosition: Option<Point>
    var zoomSignals: seq<bool>
    var scrollResets: nat

    /** The first render followed by the mount run of the layout effect,
        which scrolls to the origin since the page starts unscaled. */
    constructor (layout: Dimensions, hook: DoubleTapToZoom.TapClock,
                 doubleTapToZoomEnabled: bool, swipeToCloseEnabled: bool, hasSingleTapHandler: bool)
      ensures this.layout == layout && hookScreen == layout && this.hook == hook
      ensures this.doubleTapToZoomEnabled == doubleTapToZoomEnabled
      ensures this.swipeToCloseEnabled == swipeToCloseEnabled
      ensures this.hasSingleTapHandler == hasSingleTapHandler
      ensures !scaled && lastTap == 0 && lastTapPosition == None
      ensures zoomSignals == [] && scrollResets == 1
    {
      this.layout := layout;
      hookScreen := layout;
      this.hook := hook;
      this.doubleTapToZoomEnabled := doubleTapToZoomEnabled;
      this.swipeToCloseEnabled := swipeToCloseEnabled;
      this.hasSingleTapHandler := hasSingleTapHandler;
      scaled := false;
      lastTap := 0;
      lastTapPosition := None;
      zoomSignals := [];
      scrollResets := 1;
    }

    /** `handlePress` at time `now`, with the touch's `location` in the view
        and its `page` position on the screen. Returns whether the
        single-tap timer was started and the rectangle the hook zooms to. */
    method Press(now: int, location: Point, page: Point) returns (timerStarted: bool, zoomTo: Option<DoubleTapToZoom.Rect>)
      modifies this, hook
      ensures var before := PressState(old(lastTap), old(lastTapPosition), old(hook.lastTapTS));
        && PressState(lastTap, lastTapPosition, hook.lastTapTS) == AfterPress(before, now, location, doubleTapToZoomEnabled)
        && (timerStarted <==> !PressIsDouble(before.lastTap, before.lastTapPosition, now, location))
        && (zoomTo.Some? <==> PressZooms(before, now, location, doubleTapToZoomEnabled))
        && (zoomTo.Some? ==> zoomTo.value == DoubleTapToZoom.ZoomRect(scaled, page, hookScreen))
      ensures layout == old(layout) && hookScreen == old(hookScreen) && scaled == old(scaled)
      ensures zoomSignals == old(zoomSignals) && scrollResets == old(scrollResets)
    {
      timerStarted := false;
      zoomTo := None;
      var isDoubleTap := lastTap > 0 && now - lastTap < DoubleTapDelay && lastTapPosition.Some?
        && Abs(location.x - lastTapPosition.value.x) < DoubleTapRadius
        && Abs(location.y - lastTapPosition.value.y) < DoubleTapRadius;
      if isDoubleTap {
        lastTap := 0;
        lastTapPosition := None;
        if doubleTapToZoomEnabled {
          zoomTo := hook.HandleDoubleTap(now, page, scaled, hookScreen, true);
        }
      } else {
        lastTap := now;
        lastTapPosition := Some(location);
        timerStarted := true;
      }
    }

    /** The single-tap timer of the press at `captured` fires. */
    method SingleTapTimerFires(captured: int) returns (singleTap: bool)
      ensures singleTap <==> SingleTapConfirmed(captured, lastTap) && hasSingleTapHandler
    {
      singleTap := lastTap == captured && hasSingleTapHandler;
    }

    /** `onScrollEndDrag` with the event's `zoomScale` and vertical velocity:
        reports and stores whether the view is zoomed, and may close. A
        change of `scaled` renders again, which gives the hook's callback the
        current layout; when `scaled` turns false the layout effect scrolls
        back to the origin. */
    method OnScrollEndDrag(zoomScale: real, velocity: Option<real>) returns (close: bool)
      modifies this
      ensures scaled == (zoomScale > 1.0)
      ensures zoomSignals == old(zoomSignals) + [scaled]
      ensures close <==> DragRequestsClose(zoomScale, velocity, swipeToCloseEnabled)
      ensures scrollResets == if old(scaled) && !scaled then old(scrollResets) + 1 else old(scrollResets)
      ensures hookScreen == if scaled != old(scaled) then layout else old(hookScreen)
      ensures layout == old(layout) && lastTap == old(lastTap) && lastTapPosition == old(lastTapPosition)
    {
      var velocityY := if velocity.Some? then velocity.value else 0.0;
      var nowScaled := zoomScale > 1.0;
      zoomSignals := zoomSignals + [nowScaled];
      var changed := nowScaled != scaled;
      scaled := nowScaled;
      if changed {
        hookScreen := layout;
        if !scaled {
          scrollResets := scrollResets + 1;
        }
      }
      close := !nowScaled && swipeToCloseEnabled && Abs(velocityY) > SwipeCloseVelocity;
    }

    /** A render with a new `layout`: when its width or height changed, the
        effect scrolls back to the origin unless the view is zoomed. The
        hook's callback keeps its earlier `screen`. */
    method LayoutChanged(newLayout: Dimensions)
      modifies this
      ensures layout == newLayout
      ensures scrollResets == if newLayout != old(layout) && !scaled then old(scrollResets) + 1 else old(scrollResets)
      ensures scaled == old(scaled) && lastTap == old(lastTap) && lastTapPosition == old(lastTapPosition)
      ensures zoomSignals == old(zoomSignals) && hookScreen == old(hookScreen)
    {
      if newLayout != layout {
        layout := newLayout;
        if !scaled {
          scrollResets := scrollResets + 1;
        }
      }
    }
  }

  /** A recognised double tap clears the page's record, so the next press
      is never a double tap: double taps do not chain. */
  lemma DoubleTapsDoNotChain(s: PressState, now: int, position: Point, zoomEnabled: bool, later: int, laterPosition: Point)
    requires PressIsDouble(s.lastTap, s.lastTapPosition, now, position)
    ensures var after := AfterPress(s, now, position, zoomEnabled);
      !PressIsDouble(after.lastTap, after.lastTapPosition, later, laterPosition)
  {
  }

  /** After a press at a non-zero time `t`, any further press before its
      timer fires (a double tap clears the record, a single tap replaces it
      with its own time) keeps `onSingleTap` from being called; with no
      further press it is called. */
  lemma {:induction false} SingleTapNeedsNoFollowingPress(s: PressState, t: int, position: Point, zoomEnabled: bool,
                                                          next: int, nextPosition: Point)
    requires t != 0 && next != t && !PressIsDouble(s.lastTap, s.lastTapPosition, t, position)
    ensures SingleTapConfirmed(t, AfterPress(s, t, position, zoomEnabled).lastTap)
    ensures !SingleTapConfirmed(t, AfterPress(AfterPress(s, t, position, zoomEnabled), next, nextPosition, zoomEnabled).lastTap)
  {
  }

  /** Starting fresh, four quick presses at one spot zoom only on the fourth:
      the page sees double taps on the second and fourth press, but the
      hook's own timestamp is unset at the second, which only records it. */
  lemma {:induction false} FirstDoubleTapOnlyArmsHook(p: Point, t1: int, t2: int, t3: int, t4: int)
    requires 0 < t1 < t2 < t3 < t4 && t4 - t1 < DoubleTapDelay
    ensures var s0 := PressState(0, None, None);
      var s1 := AfterPress(s0, t1, p, true);
      var s2 := AfterPress(s1, t2, p, true);
      var s3 := AfterPress(s2, t3, p, true);
      && !PressZooms(s0, t1, p, true) && !PressZooms(s1, t2, p, true)
      && !PressZooms(s2, t3, p, true) && PressZooms(s3, t4, p, true)
      && s2.hookTapTS == Some(t2)
  {
  }

  /** The aspect ratio is width over height for a measured image and 1
      otherwise; an image is tall exactly when that is below 0.7. */
  lemma {:induction false} AspectRatioOfMeasuredImage(image: Dimensions)
    ensures image.width != 0.0 && image.height != 0.0 ==> AspectRatio(image) * image.height == image.width
    ensures image.width == 0.0 || image.height == 0.0 ==> AspectRatio(image) == 1.0
  {
    if image.width != 0.0 && image.height != 0.0 {
      var r := image.width / image.height;
      assert r * image.height == image.width;
    }
  }

  /** A tall image keeps its aspect ratio and fits inside the layout width
      and 95% of the layout height; any other image fills the layout width
      with its aspect ratio kept. */
  lemma {:induction false} DisplaySizeFits(image: Dimensions, layout: Dimensions)
    requires layout.width >= 0.0 && layout.height >= 0.0 && AspectRatio(image) > 0.0
    ensures var size, aspect := DisplaySize(image, layout), AspectRatio(image);
      && size.width == size.height * aspect
      && (aspect < TallAspectRatio ==> size.width <= layout.width && size.height <= layout.height * 0.95)
      && (aspect >= TallAspectRatio ==> size.width == layout.width)
  {
    var aspect := AspectRatio(image);
    if aspect < TallAspectRatio {
      var h := Min(layout.height * 0.95, layout.width / aspect);
      MulLe(h, layout.width / aspect, aspect);
      assert (layout.width / aspect) * aspect == layout.width;
    } else {
      assert (layout.width / aspect) * aspect == layout.width;
    }
  }

  /** A zoomed view never closes on drag end, and a slow drag never does. */
  lemma ZoomedOrSlowDragNeverCloses(zoomScale: real, velocity: Option<real>, enabled: bool)
    requires zoomScale > 1.0 || velocity.None? || Abs(velocity.value) <= SwipeCloseVelocity
    ensures !DragRequestsClose(zoomScale, velocity, enabled)
  {
  }
}
