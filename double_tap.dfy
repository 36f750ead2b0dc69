/** The iOS `useDoubleTapToZoom` hook (dist/hooks/useDoubleTapToZoom.js).
    One module-level timestamp, `lastTapTS`, is shared by every page: a tap
    within `DOUBLE_TAP_DELAY` ms of it is a double tap and asks the scroll
    responder to zoom to a rectangle; any other tap records its own time. */
module DoubleTapToZoom {
  import opened Common

  const DoubleTapDelay: int := 300

  /** The rectangle passed to `scrollResponderZoomTo`. */
  datatype Rect = Rect(x: real, y: real, width: real, height: real)

  /** `lastTapTS && nowTS - lastTapTS < DOUBLE_TAP_DELAY`: a recorded,
      non-zero timestamp less than the delay ago. */
  predicate IsDoubleTap(lastTapTS: Option<int>, now: int) {
    lastTapTS.Some? && lastTapTS.value != 0 && now - lastTapTS.value < DoubleTapDelay
  }

  /** `lastTapTS` after a tap at `now`: only a tap that is not a double tap writes it. */
  function AfterTap(lastTapTS: Option<int>, now: int): Option<int> {
    if IsDoubleTap(lastTapTS, now) then lastTapTS else Some(now)
  }

  /** The zoom target of a double tap: the whole screen when already scaled
      (zoom out), otherwise a half-size rectangle at half the tap position. */
  function ZoomRect(scaled: bool, tap: Point, screen: Dimensions): Rect {
    if !scaled then Rect(tap.x / 2.0, tap.y / 2.0, screen.width / 2.0, screen.height / 2.0)
    else Rect(0.0, 0.0, screen.width, screen.height)
  }

  /** The module-level variable `lastTapTS`, shared by every page's handler. */
  class TapClock {
    var lastTapTS: Option<int>

    /** `let lastTapTS = null`. */
    constructor ()
      ensures lastTapTS == None
    {
      lastTapTS := None;
    }

    /** `handleDoubleTap` at time `now` for a page that is `scaled` or not;
        `hasResponder` says whether the scroll view's responder exists.
        Returns the rectangle it zooms to, if any. */
    method HandleDoubleTap(now: int, tap: Point, scaled: bool, screen: Dimensions, hasResponder: bool)
      returns (zoomTo: Option<Rect>)
      modifies this
      ensures lastTapTS == AfterTap(old(lastTapTS), now)
      ensures zoomTo.Some? <==> IsDoubleTap(old(lastTapTS), now) && hasResponder
      ensures zoomTo.Some? ==> zoomTo.value == ZoomRect(scaled, tap, screen)
    {
      zoomTo := None;
      if lastTapTS.Some? && lastTapTS.value != 0 && now - lastTapTS.value < DoubleTapDelay {
        var target := Rect(0.0, 0.0, screen.width, screen.height);
        if !scaled {
          target := Rect(tap.x / 2.0, tap.y / 2.0, screen.width / 2.0, screen.height / 2.0);
        }
        if hasResponder {
          zoomTo := Some(target);
        }
      } else {
        lastTapTS := Some(now);
      }
    }
  }

  /** Which of a run of taps are double taps, starting from `lastTapTS`. */
  function DoubleTaps(lastTapTS: Option<int>, taps: seq<int>): (flags: seq<bool>)
    ensures |flags| == |taps|
    decreases |taps|
  {
    if |taps| == 0 then []
    else [IsDoubleTap(lastTapTS, taps[0])] + DoubleTaps(AfterTap(lastTapTS, taps[0]), taps[1..])
  }

  /** `lastTapTS` after a run of taps. */
  function LastTapAfter(lastTapTS: Option<int>, taps: seq<int>): Option<int>
    decreases |taps|
  {
    if |taps| == 0 then lastTapTS
    else LastTapAfter(AfterTap(lastTapTS, taps[0]), taps[1..])
  }

  /** A double tap never refreshes the timestamp, so every tap less than the
      delay after a recorded non-zero tap is a double tap, however many
      come, and the recorded timestamp stays the same. */
  lemma {:induction false} TapsWithinDelayOfRecordedTapAreDouble(recorded: int, taps: seq<int>)
    requires recorded != 0
    requires forall i :: 0 <= i < |taps| ==> taps[i] - recorded < DoubleTapDelay
    ensures forall i :: 0 <= i < |taps| ==> DoubleTaps(Some(recorded), taps)[i]
    ensures LastTapAfter(Some(recorded), taps) == Some(recorded)
  {
    if |taps| > 0 {
      TapsWithinDelayOfRecordedTapAreDouble(recorded, taps[1..]);
      var flags := DoubleTaps(Some(recorded), taps);
      assert flags == [true] + DoubleTaps(Some(recorded), taps[1..]);
      forall i | 0 <= i < |taps|
        ensures flags[i]
      {
        if i > 0 {
          assert flags[i] == DoubleTaps(Some(recorded), taps[1..])[i - 1];
        }
      }
    }
  }

  /** The first tap after start-up is never a double tap, and a second tap
      is one exactly when the first was at a non-zero time less than the
      delay before it. */
  lemma {:induction false} SecondTapIsDoubleWhenQuick(first: int, second: int)
    ensures DoubleTaps(None, [first, second])
         == [false, first != 0 && second - first < DoubleTapDelay]
  {
    assert [first, second][1..] == [second];
    assert DoubleTaps(Some(first), [second]) == [IsDoubleTap(Some(first), second)] + DoubleTaps(Some(second), []);
  }

  /** Zooming in targets a rectangle half the screen's size that stays on
      the screen and contains the tap, for any tap on the screen. */
  lemma {:induction false} ZoomInRectContainsTap(tap: Point, screen: Dimensions)
    requires 0.0 <= tap.x <= screen.width && 0.0 <= tap.y <= screen.height
    ensures var r := ZoomRect(false, tap, screen);
      && r.width * 2.0 == screen.width && r.height * 2.0 == screen.height
      && 0.0 <= r.x && r.x + r.width <= screen.width
      && 0.0 <= r.y && r.y + r.height <= screen.height
      && r.x <= tap.x <= r.x + r.width
      && r.y <= tap.y <= r.y + r.height
  {
  }

  /** Zooming out targets the whole screen. */
  lemma ZoomOutRectIsScreen(tap: Point, screen: Dimensions)
    ensures ZoomRect(true, tap, screen) == Rect(0.0, 0.0, screen.width, screen.height)
  {
  }
}

/** The Android `useDoubleTapToZoom` hook (src/hooks/useDoubleTapToZoom.android.ts).
    It has its own module-level `lastTapTS` and the same double-tap rule;
    on a double tap it scrolls the scroll view to the origin, zoomed or not. */
module DoubleTapToZoomAndroid {
  import opened Common
  import DoubleTapToZoom

  /** Where a double tap scrolls: nowhere without a scroll view, otherwise
      `(0, 0)`, in both the unscaled and the scaled branch. */
  function ScrollTarget(scaled: bool, hasScrollView: bool): Option<Point> {
    if !hasScrollView then None
    else if !scaled then Some(Point(0.0, 0.0))
    else Some(Point(0.0, 0.0))
  }

  /** The module-level variable `lastTapTS` of this hook. */
  class TapClock {
    var lastTapTS: Option<int>

    constructor ()
      ensures lastTapTS == None
    {
      lastTapTS := None;
    }

    /** `handleDoubleTap` at time `now`; returns the scroll it issues, if any.
        A failing `scrollTo` is caught and logged, so it changes nothing here. */
    method HandleDoubleTap(now: int, scaled: bool, hasScrollView: bool) returns (scroll: Option<Point>)
      modifies this
      ensures lastTapTS == DoubleTapToZoom.AfterTap(old(lastTapTS), now)
      ensures scroll == if DoubleTapToZoom.IsDoubleTap(old(lastTapTS), now) then ScrollTarget(scaled, hasScrollView) else None
    {
      scroll := None;
      if lastTapTS.Some? && lastTapTS.value != 0 && now - lastTapTS.value < DoubleTapToZoom.DoubleTapDelay {
        if hasScrollView {
          if !scaled {
            scroll := Some(Point(0.0, 0.0));
          } else {
            scroll := Some(Point(0.0, 0.0));
          }
        }
      } else {
        lastTapTS := Some(now);
      }
    }
  }

  /** The effect of a double tap does not depend on `scaled`: it is the
      scroll to the origin when there is a scroll view, and nothing otherwise. */
  lemma ScrollTargetIgnoresScaled(hasScrollView: bool)
    ensures ScrollTarget(true, hasScrollView) == ScrollTarget(false, hasScrollView)
         == if hasScrollView then Some(Point(0.0, 0.0)) else None
  {
  }
}
