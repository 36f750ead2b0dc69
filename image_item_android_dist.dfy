/** One page of the viewer on Android as compiled in
    dist/components/ImageItem/ImageItem.android.js: a pan responder drives
    pinch zoom and panning of animated values, the zoom state is reported
    only when it changes, and every release animates back to scale 1. */
module ImageItemAndroidDist {
  import opened Common

  const MaxScale: real := 3.0
  const MinScale: real := 1.0
  /** `updateZoomState` counts a scale above this as zoomed. */
  const ZoomedAbove: real := 1.05

  /** `root` is `Math.sqrt(dx * dx + dy * dy)` for the first two touches,
      `dx` and `dy` taken from the first to the second. */
  predicate IsTouchDistance(touches: seq<Point>, root: real) {
    |touches| >= 2 ==>
      (root >= 0.0
       && root * root == (touches[1].x - touches[0].x) * (touches[1].x - touches[0].x)
                       + (touches[1].y - touches[0].y) * (touches[1].y - touches[0].y))
  }

  /** `calculateDistance`: 0 with fewer than two touches, otherwise the
      distance between the first two, which the caller supplies as `root`
      (the `Math.sqrt` of the squared gap). */
  function CalculateDistance(touches: seq<Point>, root: real): (d: real)
    requires IsTouchDistance(touches, root)
    ensures d >= 0.0
    ensures |touches| < 2 ==> d == 0.0
    ensures |touches| >= 2 ==> d * d == SquaredGap(touches[0], touches[1])
  {
    if |touches| < 2 then 0.0 else root
  }

  /** What `updateZoomState(newScale)` reports through `onZoom` when the
      handler sees `wasZoomed`: the new state, only when it differs. */
  function ZoomChange(wasZoomed: bool, newScale: real): Option<bool> {
    var nowZoomed := newScale > ZoomedAbove;
    if wasZoomed != nowZoomed then Some(nowZoomed) else None
  }

  /** The scale a pinch sets: the ratio of the current to the initial
      distance, clamped into `[MIN_SCALE, MAX_SCALE]`. */
  function PinchScale(currentDistance: real, initialDistance: real): (r: real)
    requires initialDistance != 0.0
    ensures MinScale <= r <= MaxScale
    ensures MinScale <= currentDistance / initialDistance <= MaxScale ==> r == currentDistance / initialDistance
  {
    Min(MaxScale, Max(MinScale, currentDistance / initialDistance))
  }

  /** `onMoveShouldSetPanResponder`, with the `isZoomed` its closure sees. */
  predicate ShouldClaimMove(numberActiveTouches: int, capturedZoomed: bool) {
    numberActiveTouches >= 2 || (capturedZoomed && numberActiveTouches == 1)
  }

  /** The page's state: the values last given to the animated `scale`,
      `translateX` and `translateY`, the `isZoomed` state, the fields of the
      `gestureState` ref and every `onZoom` call. */
  class ImageItem {
    const hasOnZoom: bool
    var scale: real
    var translateX: real
    var translateY: real
    var isZoomed: bool
    var lastScale: real
    var lastTranslateX: real
    var lastTranslateY: real
    var initialTouchDistance: real
    var initialTouchX: real
    var initialTouchY: real
    var pinchTouches: seq<Point>
    var zoomSignals: seq<bool>
    /** Whether a snap-back animation was started and has not finished. */
    var snapBackRunning: bool

    ghost predicate Valid()
      reads this
    {
      MinScale <= scale <= MaxScale && initialTouchDistance >= 0.0
    }

    constructor (hasOnZoom: bool)
      ensures Valid() && this.hasOnZoom == hasOnZoom
      ensures scale == 1.0 && translateX == 0.0 && translateY == 0.0 && !isZoomed
      ensures lastScale == 1.0 && lastTranslateX == 0.0 && lastTranslateY == 0.0
      ensures initialTouchDistance == 0.0 && initialTouchX == 0.0 && initialTouchY == 0.0
      ensures pinchTouches == [] && zoomSignals == [] && !snapBackRunning
    {
      this.hasOnZoom := hasOnZoom;
      scale, translateX, translateY := 1.0, 0.0, 0.0;
      isZoomed := false;
      lastScale, lastTranslateX, lastTranslateY := 1.0, 0.0, 0.0;
      initialTouchDistance, initialTouchX, initialTouchY := 0.0, 0.0, 0.0;
      pinchTouches := [];
      zoomSignals := [];
      snapBackRunning := false;
    }

    /** `updateZoomState(newScale)` as seen by a closure holding `wasZoomed`. */
    method UpdateZoomState(newScale: real, wasZoomed: bool)
      modifies this
      ensures var change := ZoomChange(wasZoomed, newScale);
        && isZoomed == (if change.Some? then change.value else old(isZoomed))
        && zoomSignals == old(zoomSignals) + (if change.Some? && hasOnZoom then [change.value] else [])
      ensures scale == old(scale) && translateX == old(translateX) && translateY == old(translateY)
      ensures lastScale == old(lastScale) && lastTranslateX == old(lastTranslateX) && lastTranslateY == old(lastTranslateY)
      ensures initialTouchDistance == old(initialTouchDistance)
      ensures initialTouchX == old(initialTouchX) && initialTouchY == old(initialTouchY)
      ensures pinchTouches == old(pinchTouches) && snapBackRunning == old(snapBackRunning)
    {
      var nowZoomed := newScale > ZoomedAbove;
      if wasZoomed != nowZoomed {
        isZoomed := nowZoomed;
        if hasOnZoom {
          zoomSignals := zoomSignals + [nowZoomed];
        }
      }
    }

    /** `onPanResponderGrant` with the touches of the event; `root` is the
        distance between the first two. */
    method Grant(touches: seq<Point>, root: real)
      requires Valid()
      requires IsTouchDistance(touches, root)
      modifies this
      ensures Valid()
      ensures lastScale == 1.0 && lastTranslateX == 0.0 && lastTranslateY == 0.0
      ensures |touches| >= 2 ==>
        && pinchTouches == touches && initialTouchDistance == CalculateDistance(touches, root)
        && Point(initialTouchX, initialTouchY) == Midpoint(touches[0], touches[1])
      ensures |touches| < 2 ==>
        && pinchTouches == old(pinchTouches) && initialTouchDistance == old(initialTouchDistance)
        && initialTouchX == old(initialTouchX) && initialTouchY == old(initialTouchY)
      ensures scale == old(scale) && translateX == old(translateX) && translateY == old(translateY)
      ensures isZoomed == old(isZoomed) && zoomSignals == old(zoomSignals) && snapBackRunning == old(snapBackRunning)
    {
      lastScale := 1.0;
      lastTranslateX := 0.0;
      lastTranslateY := 0.0;
      if |touches| >= 2 {
        pinchTouches := touches;
        initialTouchDistance := CalculateDistance(touches, root);
        initialTouchX := (touches[0].x + touches[1].x) / 2.0;
        initialTouchY := (touches[0].y + touches[1].y) / 2.0;
      }
    }

    /** `onPanResponderMove` with the event's touches, `root` the distance
        between the first two, the gesture's `dx`/`dy` and the `isZoomed`
        the responder's closure sees. */
    method Move(touches: seq<Point>, root: real, gestureDx: real, gestureDy: real, capturedZoomed: bool)
      requires Valid()
      requires IsTouchDistance(touches, root)
      modifies this
      ensures Valid()
      ensures |touches| >= 2 && old(initialTouchDistance) != 0.0 ==>
        var newScale := PinchScale(CalculateDistance(touches, root), old(initialTouchDistance));
        var mid := Midpoint(touches[0], touches[1]);
        && scale == newScale
        && translateX == (mid.x - initialTouchX) / 2.0 && translateY == (mid.y - initialTouchY) / 2.0
        && var change := ZoomChange(capturedZoomed, newScale);
           && isZoomed == (if change.Some? then change.value else old(isZoomed))
           && zoomSignals == old(zoomSignals) + (if change.Some? && hasOnZoom then [change.value] else [])
      ensures |touches| >= 2 && old(initialTouchDistance) == 0.0 ==>
        && scale == old(scale) && translateX == old(translateX) && translateY == old(translateY)
        && isZoomed == old(isZoomed) && zoomSignals == old(zoomSignals)
      ensures |touches| < 2 ==>
        && scale == old(scale) && isZoomed == old(isZoomed) && zoomSignals == old(zoomSignals)
        && (if capturedZoomed && |touches| == 1 then
              translateX == gestureDx / 2.0 && translateY == gestureDy / 2.0
            else translateX == old(translateX) && translateY == old(translateY))
      ensures lastScale == old(lastScale) && lastTranslateX == old(lastTranslateX) && lastTranslateY == old(lastTranslateY)
      ensures initialTouchDistance == old(initialTouchDistance)
      ensures initialTouchX == old(initialTouchX) && initialTouchY == old(initialTouchY)
      ensures pinchTouches == old(pinchTouches) && snapBackRunning == old(snapBackRunning)
    {
      if |touches| >= 2 {
        var currentDistance := CalculateDistance(touches, root);
        var initialDistance := initialTouchDistance;
        if initialDistance == 0.0 {
          return;
        }
        var newScale := currentDistance / initialDistance;
        newScale := Min(MaxScale, Max(MinScale, newScale));
        scale := newScale;
        var currentTouchX := (touches[0].x + touches[1].x) / 2.0;
        var currentTouchY := (touches[0].y + touches[1].y) / 2.0;
        translateX := (currentTouchX - initialTouchX) / 2.0;
        translateY := (currentTouchY - initialTouchY) / 2.0;
        UpdateZoomState(newScale, capturedZoomed);
      } else if capturedZoomed && |touches| == 1 {
        translateX := gestureDx / 2.0;
        translateY := gestureDy / 2.0;
      }
    }

    /** `onPanResponderRelease`. The listener that would update
        `currentScaleVal` runs only later, so the value read is always 1 and
        the snap-back to scale 1 and translate `(0, 0)` starts on every release. */
    method Release()
      requires Valid()
      modifies this
      ensures Valid()
      ensures scale == 1.0 && translateX == 0.0 && translateY == 0.0 && snapBackRunning
      ensures isZoomed == old(isZoomed) && zoomSignals == old(zoomSignals)
      ensures lastScale == old(lastScale) && lastTranslateX == old(lastTranslateX) && lastTranslateY == old(lastTranslateY)
      ensures initialTouchDistance == old(initialTouchDistance)
      ensures initialTouchX == old(initialTouchX) && initialTouchY == old(initialTouchY)
      ensures pinchTouches == old(pinchTouches)
    {
      var currentScaleVal := 1.0;
      if currentScaleVal < ZoomedAbove {
        scale := 1.0;
        translateX := 0.0;
        translateY := 0.0;
        snapBackRunning := true;
      }
    }

    /** The snap-back animation finished: `updateZoomState(1)` with the
        `isZoomed` the responder's closure sees. */
    method SnapBackFinished(capturedZoomed: bool)
      requires snapBackRunning
      modifies this
      ensures !snapBackRunning
      ensures isZoomed == (if capturedZoomed then false else old(isZoomed))
      ensures zoomSignals == old(zoomSignals) + (if capturedZoomed && hasOnZoom then [false] else [])
      ensures scale == old(scale) && translateX == old(translateX) && translateY == old(translateY)
      ensures lastScale == old(lastScale) && lastTranslateX == old(lastTranslateX) && lastTranslateY == old(lastTranslateY)
      ensures initialTouchDistance == old(initialTouchDistance)
      ensures initialTouchX == old(initialTouchX) && initialTouchY == old(initialTouchY)
      ensures pinchTouches == old(pinchTouches)
    {
      snapBackRunning := false;
      UpdateZoomState(1.0, capturedZoomed);
    }
  }

  /** The zoom state after `updateZoomState` for each scale of a run, when
      each call sees the state the previous one left. */
  function ZoomStateAfter(isZoomed: bool, scales: seq<real>): bool
    decreases |scales|
  {
    if |scales| == 0 then isZoomed
    else ZoomStateAfter(if ZoomChange(isZoomed, scales[0]).Some? then !isZoomed else isZoomed, scales[1..])
  }

  /** The `onZoom` calls of such a run. */
  function ZoomSignals(isZoomed: bool, scales: seq<real>): seq<bool>
    decreases |scales|
  {
    if |scales| == 0 then []
    else
      var change := ZoomChange(isZoomed, scales[0]);
      (if change.Some? then [change.value] else [])
      + ZoomSignals(if change.Some? then change.value else isZoomed, scales[1..])
  }

  /** Reported against the current state, zoom signals are edge-triggered:
      the first differs from the starting state, each differs from the one
      before, and the last is the final state. */
  lemma {:induction false} ZoomSignalsAlternate(isZoomed: bool, scales: seq<real>)
    ensures var s := ZoomSignals(isZoomed, scales);
      && (|s| > 0 ==> s[0] != isZoomed && s[|s| - 1] == ZoomStateAfter(isZoomed, scales))
      && (|s| == 0 ==> ZoomStateAfter(isZoomed, scales) == isZoomed)
      && forall i :: 0 <= i < |s| - 1 ==> s[i] != s[i + 1]
    decreases |scales|
  {
    if |scales| > 0 {
      var change := ZoomChange(isZoomed, scales[0]);
      var next := if change.Some? then change.value else isZoomed;
      ZoomSignalsAlternate(next, scales[1..]);
      var rest := ZoomSignals(next, scales[1..]);
      assert ZoomStateAfter(isZoomed, scales) == ZoomStateAfter(next, scales[1..]);
      if change.Some? {
        assert ZoomSignals(isZoomed, scales) == [change.value] + rest;
        PrependKeepsAlternating(change.value, rest);
      } else {
        assert ZoomSignals(isZoomed, scales) == rest;
      }
    }
  }

  /** Putting in front of an alternating run a signal that differs from its
      first keeps the run alternating. */
  lemma PrependKeepsAlternating(b: bool, rest: seq<bool>)
    requires |rest| > 0 ==> rest[0] != b
    requires forall i :: 0 <= i < |rest| - 1 ==> rest[i] != rest[i + 1]
    ensures var s := [b] + rest; forall i :: 0 <= i < |s| - 1 ==> s[i] != s[i + 1]
  {
    var s := [b] + rest;
    forall i | 0 <= i < |s| - 1
      ensures s[i] != s[i + 1]
    {
      if i > 0 {
        assert s[i] == rest[i - 1] && s[i + 1] == rest[i];
      }
    }
  }

  /** The `onZoom` calls of a run of `updateZoomState` calls that all see
      the first render's `isZoomed` (false), as the page's responder
      does: a pinch step gives its clamped scale, a finished snap-back 1. */
  function StaleZoomSignals(scales: seq<real>): seq<bool>
    decreases |scales|
  {
    if |scales| == 0 then []
    else
      var change := ZoomChange(false, scales[0]);
      (if change.Some? then [change.value] else []) + StaleZoomSignals(scales[1..])
  }

  /** Seen through the stale closure, no run ever reports `onZoom(false)`:
      every signal is a zoom-in, one for each step past 1.05, so a zoom-out
      is never reported once a pinch has reported a zoom-in. */
  lemma {:induction false} StaleRunNeverReportsZoomOut(scales: seq<real>)
    ensures forall i :: 0 <= i < |StaleZoomSignals(scales)| ==> StaleZoomSignals(scales)[i]
    ensures |StaleZoomSignals(scales)| > 0 <==> exists i :: 0 <= i < |scales| && scales[i] > ZoomedAbove
    decreases |scales|
  {
    if |scales| > 0 {
      StaleRunNeverReportsZoomOut(scales[1..]);
      var rest := StaleZoomSignals(scales[1..]);
      if scales[0] > ZoomedAbove {
        assert StaleZoomSignals(scales) == [true] + rest;
      } else {
        assert StaleZoomSignals(scales) == rest;
        if exists i :: 0 <= i < |scales| && scales[i] > ZoomedAbove {
          var i :| 0 <= i < |scales| && scales[i] > ZoomedAbove;
          assert scales[1..][i - 1] == scales[i];
        }
      }
      if exists i :: 0 <= i < |scales| - 1 && scales[1..][i] > ZoomedAbove {
        var i :| 0 <= i < |scales| - 1 && scales[1..][i] > ZoomedAbove;
        assert scales[i + 1] > ZoomedAbove;
      }
    }
  }

  /** The responder's closure always sees the first render's `isZoomed`
      (false), so every pinch step past 1.05 reports `onZoom(true)` again
      and no step reports false. */
  lemma StaleClosureRepeatsZoomIn(newScale: real)
    ensures ZoomChange(false, newScale) == if newScale > ZoomedAbove then Some(true) else None
  {
  }

  /** A move with two or more fingers is always claimed, a one-finger move
      exactly when the closure's `isZoomed` is set, and nothing else. The
      responder is created once, so that `isZoomed` is the first render's
      false and a one-finger pan is never claimed. */
  lemma {:induction false} MoveClaimRule(numberActiveTouches: int, capturedZoomed: bool)
    ensures numberActiveTouches >= 2 ==> ShouldClaimMove(numberActiveTouches, capturedZoomed)
    ensures numberActiveTouches == 1 ==> (ShouldClaimMove(numberActiveTouches, capturedZoomed) <==> capturedZoomed)
    ensures numberActiveTouches < 1 ==> !ShouldClaimMove(numberActiveTouches, capturedZoomed)
    ensures !ShouldClaimMove(1, false)
  {
  }

  /** Pinch panning moves by half the displacement of the touches' midpoint
      since the grant. */
  lemma {:induction false} PinchTranslateIsHalfMidpointShift(a0: Point, b0: Point, a1: Point, b1: Point)
    ensures var m0, m1 := Midpoint(a0, b0), Midpoint(a1, b1);
      (m1.x - m0.x) / 2.0 == ((a1.x - a0.x) + (b1.x - b0.x)) / 4.0
      && (m1.y - m0.y) / 2.0 == ((a1.y - a0.y) + (b1.y - b0.y)) / 4.0
  {
  }
}
