# react-native-image-viewing, modelled in Dafny

This project models the core of `react-native-image-viewing`, a full-screen image
viewer for React Native. The model covers both the TypeScript sources under `src/`
and the compiled copies under `dist/`, which differ in several places. It covers:

- the geometry helpers: fitting an image to the screen, centring it and recovering a
  size or translate from one another;
- the small first-in-first-out cache and the batching helper;
- the hook that turns a horizontal scroll offset into the current page index;
- the double-tap hooks on both platforms;
- one image page on Android and on iOS: tap and double-tap recognition, zoom,
  swipe-to-close and the layout reset;
- the viewer itself: page layout, list keys, the controls shown over the pager and
  how a zoom hides them.

Values the program computes are modelled as functions over datatypes. Components
that keep React state, refs or module-level variables are classes. Each handler
becomes a method that updates that state and says what the new state is. Every
rule also has a specification function, and the lemmas state the behaviour the
code promises about that function. Numbers are Dafny `real`s; `Math.round(x)` is
`floor(x + 1/2)`.

Files:

- `common.dfy`: shared datatypes (`Option`, `Point`, `Dimensions`), `Round` and `Clamp`.
- `utils.dfy`, `cache.dfy`, `batches.dfy`: the helpers of `src/utils.ts`.
  `dist/utils.js` computes the same values, so one model serves both.
- `index_change.dfy`: `useImageIndexChange`, in the `src` and `dist` variants.
- `double_tap.dfy`: `useDoubleTapToZoom` for iOS and Android.
- `image_item_android.dfy`, `image_item_android_dist.dfy`,
  `image_item_ios.dfy`, `image_item_ios_dist.dfy`: one image page.
- `image_viewing.dfy`: the viewer, in the `src` and `dist` variants.

## Model

| member | source | states |
|---|---|---|
| Common.Round | src/hooks/useImageIndexChange.ts:24 | `Math.round` gives the integer within half a unit of its argument, ties rounding up. |
| Common.Clamp | src/components/ImageItem/ImageItem.android.tsx:221 | The result lies in the bounds; it equals the input inside them and the nearer bound outside. |
| Utils.GetImageTransform | src/utils.ts:52-75 | An unmeasured image (missing, or a zero side) gets translate (0,0) and scale 1; otherwise the scale is the fit scale. |
| Utils.FitsAndCentres | src/utils.ts:63-74 | For positive sizes the scale is `min(sw/iw, sh/ih)` and is positive. The scaled image fits, filling at least one side. The translate centres it, is non-negative and is 0 on at least one axis. |
| Utils.TranslateMatchesTransform | src/utils.ts:101-123 | `getImageTranslate` gives the translate of `getImageTransform`. |
| Utils.DimensionsByTranslateInvertsCentre | src/utils.ts:125-131 | `getImageDimensionsByTranslate` undoes centring: the centring translate of a size gives that size back. |
| Utils.DimensionsByTranslateRecoversFit | src/utils.ts:101-131 | Applied to `getImageTranslate`, it gives the fitted size `(iw*scale, ih*scale)`. |
| Utils.ScaledImageSameFit | src/utils.ts:133-149 | Scaling an image by `k > 0` divides its fit scale by `k`, so the fitted size does not change. |
| Utils.ScaledImageSameTranslate | src/utils.ts:133-149 | An image scaled by `k > 0` gets the same centring translate as the original. |
| Utils.TranslateForScaleIgnoresScale | src/utils.ts:133-149 | For `targetScale > 0` the result of `getImageTranslateForScale` does not depend on `targetScale`. |
| Utils.TranslateForZeroScale | src/utils.ts:133-149 | With `targetScale == 0` it returns (0,0). |
| Utils.TranslateForScaleKeepsFittedTranslate | src/utils.ts:133-149 | Given a translate from `getImageTranslate`, it returns that translate unchanged. |
| Utils.ScreenSizedImageIsNotMoved | src/utils.ts:101-123 | An image the size of the screen is not moved. |
| Utils.DistanceBetweenTouches | src/utils.ts:185-197 | Fewer than two touches give 0; otherwise the result is the non-negative root of the squared gap between the first two touches. |
| Cache.FirstIndex | src/utils.ts:23-28 | The index of the first entry with the key, or the length when there is none. |
| Cache.Lookup | src/utils.ts:23-28 | `None` exactly when no entry has the key; otherwise the value of an entry with that key. |
| Cache.Capacity | src/utils.ts:29-35 | The most entries storage can hold: at least 1 and at least `cacheSize`. |
| Cache.Cache.constructor | src/utils.ts:21-22 | A new cache remembers its `cacheSize` and starts with empty storage. |
| Cache.Cache.Get | src/utils.ts:23-28 | The loop over storage returns the value of the first (oldest) entry with the key, or `None`. |
| Cache.Cache.Set | src/utils.ts:29-35 | Evicts the oldest entry when storage is full, then appends `(key, value)`; storage stays within `Capacity`. |
| Cache.FirstIndexUnique | src/utils.ts:23-28 | Any index before which no entry has the key, and at which one does, is the first index. |
| Cache.LookupAppend | src/utils.ts:23-28 | Looking up in `s + t` finds the match in `s` first and falls back to `t`. |
| Cache.GetAfterSet | src/utils.ts:29-35 | After `set`, `get(key)` gives the older value if one survived eviction, otherwise the new value: `set` never replaces an existing key. |
| Cache.GetAfterSetOfNewKey | src/utils.ts:29-35 | Setting a key the cache did not hold makes `get` return the new value. |
| Cache.SetLeavesOtherKeys | src/utils.ts:29-35 | `set` changes no other key's lookup, apart from what eviction removed. |
| Cache.SetKeepsCapacity | src/utils.ts:29-35 | After `set`, storage holds one more entry, or exactly `Capacity` entries when full. With `cacheSize <= 0` it holds exactly one entry. |
| Cache.SetEvictsOnlyTheOldest | src/utils.ts:29-35 | The new entry is last. Before it comes all of the old storage, or, when the cache was full, the old storage without its first entry. |
| Batches.SplitArrayIntoBatches | src/utils.ts:38-50 | The loop computes the left fold `Reduce` of the items. |
| Batches.StepAppendsItem | src/utils.ts:42-47 | One step appends the item to the concatenation of the batches. |
| Batches.StepKeepsBatchesFull | src/utils.ts:42-47 | A step keeps every batch non-empty, keeps every batch but the last at exactly `batchSize` items, and keeps the last at no more. |
| Batches.BatchesPartitionInput | src/utils.ts:38-50 | For `batchSize >= 1` the batches concatenate to the input and obey those bounds; the input is empty exactly when there are no batches. |
| Batches.FlattenLength | src/utils.ts:38-50 | Batches obeying those bounds hold `(count-1)*batchSize` items plus the length of the last batch. |
| Batches.CeilFromLastBatch | src/utils.ts:38-50 | That length gives `ceil(len/batchSize)` equal to the batch count. |
| Batches.BatchCount | src/utils.ts:38-50 | There are `ceil(n/batchSize)` batches. |
| Batches.NonPositiveBatchSize | src/utils.ts:42-47 | With `batchSize <= 0` a non-empty input gives one more batch than it has items: an empty first batch, then batch `i+1` holding item `i` alone. An empty input gives no batches. |
| ImageIndexChange.ScrolledIndex | src/hooks/useImageIndexChange.ts:16-27 | A zero width keeps the index; otherwise the new index is never negative. |
| ImageIndexChange.IndexTracker.constructor | src/hooks/useImageIndexChange.ts:15 | The index starts at the `imageIndex` prop. |
| ImageIndexChange.IndexTracker.OnScroll | src/hooks/useImageIndexChange.ts:16-27 | The stored index becomes `ScrolledIndex` of the old index, the offset and the screen width. |
| ImageIndexChange.OffsetNearPageSelectsIt | src/hooks/useImageIndexChange.ts:23-25 | Any offset within half a page of page `k >= 0` selects `k`. |
| ImageIndexChange.ExactPageOffset | src/hooks/useImageIndexChange.ts:23-25 | The offset `k*width` selects page `k`. |
| ImageIndexChange.NegativeOffsetClampsToFirst | src/hooks/useImageIndexChange.ts:25 | An offset more than half a page below 0 clamps to page 0. |
| ImageIndexChange.QuotientBetween | src/hooks/useImageIndexChange.ts:24 | An offset between `lo*w` and `hi*w` has a quotient by `w` between `lo` and `hi`. |
| ImageIndexChangeDist.ScrolledIndex | dist/hooks/useImageIndexChange.js:16-27 | A zero width keeps the index; any change is to a non-negative page. |
| ImageIndexChangeDist.IndexTracker.constructor | dist/hooks/useImageIndexChange.js:11-15 | The index starts at the `imageIndex` prop, and the prop is remembered for later renders. |
| ImageIndexChangeDist.IndexTracker.Render | dist/hooks/useImageIndexChange.js:13-15 | A new `imageIndex` prop resets the index; the same prop leaves it. |
| ImageIndexChangeDist.IndexTracker.OnScroll | dist/hooks/useImageIndexChange.js:16-27 | The index is set only when the nearest page is not negative and differs, and `updated` reports exactly that. |
| ImageIndexChangeDist.AgreesWithSourceOnPages | dist/hooks/useImageIndexChange.js:21-25 | When the nearest page is not negative, both variants move to it. |
| ImageIndexChangeDist.KeepsIndexOnNegativePage | dist/hooks/useImageIndexChange.js:23 | When the nearest page is negative, the dist variant keeps the index and the src variant clamps to 0. |
| ImageIndexChangeDist.ScrollIsIdempotent | dist/hooks/useImageIndexChange.js:21-25 | Repeating a scroll event changes nothing more. |
| DoubleTapToZoom.TapClock.constructor | dist/hooks/useDoubleTapToZoom.js:11 | `lastTapTS` starts unset. |
| DoubleTapToZoom.TapClock.HandleDoubleTap | dist/hooks/useDoubleTapToZoom.js:17-47 | It zooms exactly on a double tap with a responder, to `ZoomRect`. Only a non-double tap records its time. |
| DoubleTapToZoom.DoubleTaps | dist/hooks/useDoubleTapToZoom.js:17-47 | One flag per tap in a run of taps. |
| DoubleTapToZoom.TapsWithinDelayOfRecordedTapAreDouble | dist/hooks/useDoubleTapToZoom.js:17-47 | After a recorded non-zero tap, every tap within 300 ms of it is a double tap and the record stays. |
| DoubleTapToZoom.SecondTapIsDoubleWhenQuick | dist/hooks/useDoubleTapToZoom.js:10-21 | The first tap is never double. The second is double exactly when the first was at a non-zero time less than 300 ms earlier. |
| DoubleTapToZoom.ZoomInRectContainsTap | dist/hooks/useDoubleTapToZoom.js:22-34 | Zooming in targets a half-screen rectangle that stays on screen and contains the tap. |
| DoubleTapToZoom.ZoomOutRectIsScreen | dist/hooks/useDoubleTapToZoom.js:22-34 | Zooming out targets the whole screen. |
| DoubleTapToZoomAndroid.TapClock.constructor | src/hooks/useDoubleTapToZoom.android.ts:20 | `lastTapTS` starts unset. |
| DoubleTapToZoomAndroid.TapClock.HandleDoubleTap | src/hooks/useDoubleTapToZoom.android.ts:31-62 | Same rule as iOS; a double tap scrolls to `ScrollTarget`, and a thrown `scrollTo` is caught and changes nothing. |
| DoubleTapToZoomAndroid.ScrollTargetIgnoresScaled | src/hooks/useDoubleTapToZoom.android.ts:43-51 | Both branches scroll to (0,0) when a scroll view exists, and nothing happens without one. |
| ImageItemAndroid.PinchScale | src/components/ImageItem/ImageItem.android.tsx:216-221 | The new scale stays in [1,3] and equals `scale * cur/prev` whenever that is in range. |
| ImageItemAndroid.ImageItem.constructor | src/components/ImageItem/ImageItem.android.tsx:95-105 | Mount: unzoomed at scale 1, scrolled to the centre slot `layout.height`, one `onZoom(false)`. |
| ImageItemAndroid.ImageItem.ToggleZoom | src/components/ImageItem/ImageItem.android.tsx:81-92 | Sets `isZoomed`, reports it through `onZoom` and locks the inner scroll while zoomed. |
| ImageItemAndroid.ImageItem.LayoutChanged | src/components/ImageItem/ImageItem.android.tsx:95-105 | A new layout resets scale, translate and zoom, and scrolls back to the centre slot; the same layout changes nothing. |
| ImageItemAndroid.ImageItem.Tap | src/components/ImageItem/ImageItem.android.tsx:112-143 | A double tap toggles zoom between 1 and 2 when enabled; otherwise the single-tap timer starts. Every tap records its time. |
| ImageItemAndroid.ImageItem.SingleTapTimerFires | src/components/ImageItem/ImageItem.android.tsx:132-139 | `onSingleTap` runs exactly when the recorded last tap is at least 300 ms older than the captured time and a handler exists. SingleTapNeverConfirmed shows that this never holds. |
| ImageItemAndroid.ImageItem.OnScroll | src/components/ImageItem/ImageItem.android.tsx:146-162 | It closes exactly when swipe-to-close is on and the offset is more than half the layout height from the centre slot. |
| ImageItemAndroid.ImageItem.OnScrollEndDrag | src/components/ImageItem/ImageItem.android.tsx:165-184 | It closes when the velocity exceeds 1.75 and the offset is more than 75 from the centre slot; otherwise it snaps back to the centre slot. |
| ImageItemAndroid.ImageItem.Move | src/components/ImageItem/ImageItem.android.tsx:203-242 | Two touches pinch against the previous distance; one touch moves the translate by `PanTranslate`, which pans a zoomed image by `d/scale`. Both use the first render's captured state. |
| ImageItemAndroid.MoveClaimRule | src/components/ImageItem/ImageItem.android.tsx:191-196 | A two-finger move is always claimed. Any other move is claimed exactly when it leaves the square of 10 px around its start on either axis. |
| ImageItemAndroid.OneFingerDragNeverPans | src/components/ImageItem/ImageItem.android.tsx:187-242 | With the first render's `isZoomed == false` that the responder keeps, a one-finger drag past 10 px is claimed but leaves the translate unchanged. A closure that saw a zoomed page would pan by the drag over the scale. |
| ImageItemAndroid.DoubleTapComparesWithPreviousTap | src/components/ImageItem/ImageItem.android.tsx:112-143 | After the first tap, a tap is double exactly when it is within 300 ms of the tap before it. |
| ImageItemAndroid.ThreeQuickTapsGiveTwoDoubles | src/components/ImageItem/ImageItem.android.tsx:112-143 | Unlike the iOS hook, double taps chain: three quick taps give two double taps. |
| ImageItemAndroid.SingleTapNeverConfirmed | src/components/ImageItem/ImageItem.android.tsx:132-142 | Since `lastTapTime` is rewritten before the timer callback reads it, and later taps are no earlier, `onSingleTap` never runs. |
| ImageItemAndroid.CentredPositionNeverCloses | src/components/ImageItem/ImageItem.android.tsx:150-184 | Resting at the centre slot never closes. |
| ImageItemAndroid.SlowDragNeverCloses | src/components/ImageItem/ImageItem.android.tsx:171-175 | A release at or below the close velocity does not close. |
| ImageItemAndroid.ScrollCloseImpliesDragDistance | src/components/ImageItem/ImageItem.android.tsx:153-175 | On a layout taller than 150, an offset at which the scroll closes is also past the release threshold of 75. |
| ImageItemAndroid.PinchZoomsInWhenSpreading | src/components/ImageItem/ImageItem.android.tsx:213-225 | Spreading the fingers from scale at least 1 zooms in. |
| ImageItemAndroid.ImageHeightKeepsAspect | src/components/ImageItem/ImageItem.android.tsx:67-69 | A measured image keeps its aspect ratio at full width; an unmeasured one takes 80% of the layout height. |
| ImageItemAndroidDist.CalculateDistance | dist/components/ImageItem/ImageItem.android.js:55-61 | 0 for fewer than two touches; otherwise the non-negative root of the squared gap. |
| ImageItemAndroidDist.PinchScale | dist/components/ImageItem/ImageItem.android.js:114-117 | The distance ratio clamped to [1,3], exact when in range. |
| ImageItemAndroidDist.ImageItem.constructor | dist/components/ImageItem/ImageItem.android.js:18-33 | Mount: scale 1, translate (0,0), not zoomed, the gesture ref at its initial values, no `onZoom` call. |
| ImageItemAndroidDist.ImageItem.UpdateZoomState | dist/components/ImageItem/ImageItem.android.js:45-53 | Zoom turns on above 1.05 and off at or below it; only a change calls `onZoom`. |
| ImageItemAndroidDist.ImageItem.Grant | dist/components/ImageItem/ImageItem.android.js:82-105 | Resets the last offsets; with two touches it records their distance and midpoint. |
| ImageItemAndroidDist.ImageItem.Move | dist/components/ImageItem/ImageItem.android.js:107-138 | A pinch sets the clamped ratio and half the midpoint shift, and updates the zoom from the captured flag. One touch pans a zoomed image by half the gesture. |
| ImageItemAndroidDist.ImageItem.Release | dist/components/ImageItem/ImageItem.android.js:140-171 | Every release snaps back to scale 1 and translate (0,0). |
| ImageItemAndroidDist.ImageItem.SnapBackFinished | dist/components/ImageItem/ImageItem.android.js:156-169 | When the snap-back ends, a zoomed page, as seen by the captured flag, reports `onZoom(false)`. |
| ImageItemAndroidDist.ZoomSignalsAlternate | dist/components/ImageItem/ImageItem.android.js:45-53 | When each `updateZoomState` call sees the state the previous call left, `onZoom` signals alternate, start opposite the initial state and end at the final state. The page's responder never sees that state; see StaleRunNeverReportsZoomOut. |
| ImageItemAndroidDist.StaleRunNeverReportsZoomOut | dist/components/ImageItem/ImageItem.android.js:74-169 | Through the responder's closure, which keeps the first render's `isZoomed == false`, no run of pinch steps and snap-backs reports `onZoom(false)`. Every signal is a zoom-in, and there is one exactly when some step goes past 1.05. |
| ImageItemAndroidDist.StaleClosureRepeatsZoomIn | dist/components/ImageItem/ImageItem.android.js:116-117 | With the first render's `isZoomed == false`, every move above 1.05 reports a zoom-in again. |
| ImageItemAndroidDist.MoveClaimRule | dist/components/ImageItem/ImageItem.android.js:78-80 | Two or more fingers are always claimed, one finger exactly when the closure's `isZoomed` is set, no finger never. With the first render's `isZoomed`, a one-finger pan is never claimed. |
| ImageItemAndroidDist.PinchTranslateIsHalfMidpointShift | dist/components/ImageItem/ImageItem.android.js:118-125 | The pinch translate is a quarter of the summed finger movement. |
| ImageItemIos.AspectRatio | src/components/ImageItem/ImageItem.ios.tsx:69-71 | The aspect ratio is never 0. |
| ImageItemIos.ImageItem.constructor | src/components/ImageItem/ImageItem.ios.tsx:62-66 | Mount: unscaled, no tap recorded, one scroll to the origin. |
| ImageItemIos.ImageItem.Press | src/components/ImageItem/ImageItem.ios.tsx:126-165 | The press state moves by `AfterPress`; the timer starts exactly on a non-double press, and a zoom happens exactly when `PressZooms` holds. The zoom targets `ZoomRect` of the current `scaled` and the screen the hook's callback captured when `scaled` last changed. |
| ImageItemIos.ImageItem.SingleTapTimerFires | src/components/ImageItem/ImageItem.ios.tsx:155-162 | `onSingleTap` runs exactly when `lastTap` still equals the captured time and a handler exists. |
| ImageItemIos.ImageItem.OnScrollEndDrag | src/components/ImageItem/ImageItem.ios.tsx:90-107 | Stores and reports `scaled = zoomScale > 1`, closes on a fast unzoomed drag, and re-centres when the zoom ends. A change of `scaled` gives the hook's callback the current layout. |
| ImageItemIos.ImageItem.LayoutChanged | src/components/ImageItem/ImageItem.ios.tsx:62-66 | A new layout re-centres an unscaled page. The hook's callback keeps its earlier screen. |
| ImageItemIos.DoubleTapsDoNotChain | src/components/ImageItem/ImageItem.ios.tsx:143-151 | A double tap clears the record, so the next press is never double. |
| ImageItemIos.SingleTapNeedsNoFollowingPress | src/components/ImageItem/ImageItem.ios.tsx:152-164 | After a single press its timer confirms it, unless another press comes first. |
| ImageItemIos.FirstDoubleTapOnlyArmsHook | src/components/ImageItem/ImageItem.ios.tsx:143-151 | From a fresh start, four quick presses zoom only on the fourth: at the second, the shared hook only records the time. |
| ImageItemIos.AspectRatioOfMeasuredImage | src/components/ImageItem/ImageItem.ios.tsx:69-71 | Width over height for a measured image, 1 otherwise. |
| ImageItemIos.DisplaySizeFits | src/components/ImageItem/ImageItem.ios.tsx:74-86 | The display size keeps the aspect ratio. A tall image fits within the width and 95% of the height; a wide one takes the full width. |
| ImageItemIos.ZoomedOrSlowDragNeverCloses | src/components/ImageItem/ImageItem.ios.tsx:96-105 | A zoomed page, or a velocity of at most 1.55, never closes. |
| ImageItemIosDist.MaxScale | dist/components/ImageItem/ImageItem.ios.js:38 | The zoom cap is at least 1. |
| ImageItemIosDist.MaxScaleUndoesShrinkingFit | dist/components/ImageItem/ImageItem.ios.js:34-38 | For a fit scale in (0,1] the cap brings the image back to natural size; otherwise it is 1. |
| ImageItemIosDist.OpacityFadesWithOffset | dist/components/ImageItem/ImageItem.ios.js:39-42 | Opacity is 1 minus the absolute offset over 150: 1 at rest, 0.5 at ±75, and symmetric. |
| ImageItemIosDist.ImageItem.constructor | dist/components/ImageItem/ImageItem.ios.js:25-36 | Mount: unscaled, scroll value 0, one scroll to the origin. The animated translate and scale hold the fit at every render, with a fit scale of 0 read as 1. |
| ImageItemIosDist.ImageItem.LayoutChanged | dist/components/ImageItem/ImageItem.ios.js:25-36 | A new layout re-scrolls an unscaled page. The render starts the scroll value at 0 again. |
| ImageItemIosDist.ImageItem.OnScrollEndDrag | dist/components/ImageItem/ImageItem.ios.js:45-56 | Stores and reports `scaled` and closes on a fast unzoomed drag. A change of `scaled` re-renders, which resets the scroll value and gives the hook's callback the current layout; the end of a zoom re-scrolls. |
| ImageItemIosDist.ImageItem.OnScroll | dist/components/ImageItem/ImageItem.ios.js:57-71 | With swipe-to-close off the handler is not attached and nothing changes. Otherwise the offset is ignored while zoomed and stored when not, with a missing offset counting as 0. |
| ImageItemIosDist.ImageItem.Press | dist/components/ImageItem/ImageItem.ios.js:73 | A press goes to the shared hook only when double-tap zoom is enabled. The hook zooms to `ZoomRect` of the current `scaled` and the screen its callback captured when `scaled` last changed. |
| ImageViewing.ItemsTileTheList | src/ImageViewing.tsx:184-192 | Each page reports its own index, is `width` long and starts where the previous one ends; page 0 starts at 0. |
| ImageViewing.ItemOffsetSelectsItsPage | src/ImageViewing.tsx:184-192 | Scrolling to a page's reported offset selects that page again. |
| ImageViewing.NatToString | src/ImageViewing.tsx:247 | The decimal digits of a number: non-empty, without a leading zero. |
| ImageViewing.IntToStringRoundTrip | src/ImageViewing.tsx:247 | Parsing the decimal string of an asset number gives the number back. |
| ImageViewing.DefaultKeysIdentifySources | src/ImageViewing.tsx:243-249 | A given extractor is always used. Otherwise an asset's key denotes its number, so distinct assets get distinct keys, and a remote image's key is its `uri`. |
| ImageViewing.BarTakesTouchesOnlyWhenSeen | src/ImageViewing.tsx:155-160 | A bar takes touches exactly when it is shown, opaque and in place; a hidden one is off screen. |
| ImageViewing.RenderShowsBarsTogether | src/ImageViewing.tsx:134-136 | Nothing renders when not visible. Otherwise the header and the footer are placed alike, and the footer only when given. |
| ImageViewing.OnLayoutScrollsOnlyPastFirstPage | src/ImageViewing.tsx:232-241 | `onLayout` re-scrolls, to the current index, exactly when the list exists and the index is past 0. |
| ImageViewing.ControlsAfterAppend | src/ImageViewing.tsx:117-132 | Events on `controlsVisible` compose. |
| ImageViewing.TogglesFlipByParity | src/ImageViewing.tsx:117-120 | `n` toggles restore the controls when `n` is even and flip them when odd. |
| ImageViewing.ZoomDecidesControls | src/ImageViewing.tsx:122-132 | Whatever came before, after a zoom the controls show exactly when the page is not scaled. |
| ImageViewing.Viewer.constructor | src/ImageViewing.tsx:71-114 | Controls start shown, and the initial index is reported. |
| ImageViewing.Viewer.ToggleControls | src/ImageViewing.tsx:117-120 | Flips `controlsVisible` and nothing else. |
| ImageViewing.Viewer.OnZoom | src/ImageViewing.tsx:122-132 | Sets list scrolling (when the ref exists), bars and controls to `!isScaled`. |
| ImageViewing.Viewer.OnMomentumScrollEnd | src/ImageViewing.tsx:110-114 | Moves the index and reports it exactly when it changed, so the last reported index is always the current one. |
| ImageViewing.Viewer.DimensionsChanged | src/ImageViewing.tsx:86-108 | Stores the window and, when the list exists, schedules a re-scroll to the current index. |
| ImageViewing.Viewer.RescrollTimerFires | src/ImageViewing.tsx:93-101 | The oldest scheduled re-scroll goes to its captured index if the list still exists. |
| ImageViewingDist.RenderIsEmptyWhenHidden | dist/ImageViewing.js:64-66 | Nothing renders when not visible. |
| ImageViewingDist.ItemOffsetSelectsItsPage | dist/ImageViewing.js:75-82 | Under the dist hook too, a page's reported offset selects it. |
| ImageViewingDist.Viewer.constructor | dist/ImageViewing.js:31-57 | The index starts at the prop and is reported. |
| ImageViewingDist.Viewer.OnZoom | dist/ImageViewing.js:58-63 | Sets list scrolling and the bars to `!isScaled`; there is no controls state. |
| ImageViewingDist.Viewer.OnMomentumScrollEnd | dist/ImageViewing.js:53-57 | Moves the index by the dist rule and reports exactly a change. |
| ImageViewingDist.Viewer.DimensionsChanged | dist/ImageViewing.js:33-52 | Stores the window and, when the list exists, schedules a re-scroll to the current index. |
| ImageViewingDist.Viewer.RescrollTimerFires | dist/ImageViewing.js:39-47 | The oldest scheduled re-scroll goes to its captured index if the list still exists. |

## Left out

- Rendering, styles, `Modal`, `StatusBarManager` and the virtualisation of
  `VirtualizedList` are left out. The model keeps only the values a render depends
  on: bar placement, the render guard, item layout and keys.
- Animation is left out: `Animated` values, `Animated.timing` and
  `extractOffset`/`flattenOffset`. Each handler records only the target value it
  sets.
- Native scroll-view zooming (`scrollResponderZoomTo`, `maximumZoomScale`) is
  represented by the request the code makes. Loading images, and
  `useImageDimensions`, which reports image sizes asynchronously, are not part of
  this model: image sizes come in as parameters.
- `getImageStyles` and `createPanResponder` only build framework objects, so they
  are not part of this model.
- Timers are explicit methods (`SingleTapTimerFires`, `RescrollTimerFires`,
  `SnapBackFinished`) called with the values their callbacks captured. Wall-clock
  time is a parameter.
- The pan responders are created once, so their handlers see the first render's
  `scale` and `isZoomed`. The model passes those as the `captured*` parameters
  instead of modelling React hook semantics.
- Utils.DistanceBetweenTouches and ImageItemAndroidDist.CalculateDistance: `Math.sqrt`
  is a caller-supplied root, which must be the non-negative root of the squared gap.
- All numbers are reals, not IEEE doubles: there are no `NaN`, infinities or
  rounding error. A `0`/`undefined` dimension is the value 0 or `None`.
- Cache.Cache.Set: the cache's `cacheSize` and the batch size are integers;
  fractional sizes are not modelled.
- Cache.Lookup: the stored value type is generic, so the JavaScript case of
  storing `undefined` as a value is not distinguished from a miss.
- The `src` iOS page's `onScroll` only returns early and changes nothing, so it
  has no method in the model.
- The `src` Android page creates its `scrollValueY` animated value anew at every
  render, and nothing reads it. The model therefore keeps no scroll value for that
  page.
- `delayLongPress` (800 by default) and `onLongPress` are only passed through to the
  native touchable. Long presses are not part of this model.
- The `src` iOS page uses the shared iOS hook of `dist/hooks/useDoubleTapToZoom.js`,
  because its own `src` copy is not part of this model.
- The `dist` Android page's `imageHeight` (dist/components/ImageItem/ImageItem.android.js:37-39)
  is the same expression as the `src` one and is modelled once, by
  ImageItemAndroid.ImageHeight.
- Key extraction models numbers as integers: `${n}` of a fractional asset number
  is not modelled. A caller's `keyExtractor` is a pure function.
- `useAnimatedComponents` and `useRequestClose` are not part of this model. The
  bars' visibility is the last value given to `toggleBarsVisible`, and it starts
  shown.
- The scroll view is assumed mounted wherever a handler calls into it without a
  guard. The optional chains (`imageList?.current?`) are modelled by a `hasList`
  flag.
- Logging (`console.log`, `console.warn`) is left out.
- The `dist` viewer's `onLayout` handler (dist/ImageViewing.js:104-112) is the same
  code as the `src` one, and is modelled once by ImageViewing.OnLayoutScroll.

Where the code and its documentation disagree, the model follows the code.

- The `dist` Android page's release handler always springs back to scale 1 with
  `currentScaleVal = 1`; it never keeps a zoom between gestures.
- The `dist` Android page's pan responder is created once, so it always sees the
  first render's `isZoomed == false`. Every pinch step past 1.05 reports
  `onZoom(true)` again, and no pinch or snap-back ever reports `onZoom(false)`
  (ImageItemAndroidDist.StaleRunNeverReportsZoomOut). After one pinch, the `dist`
  viewer's list therefore stays unscrollable and its bars stay hidden.
- On Android, `onSingleTap` can never fire, because `lastTapTime` is updated
  before the timer's check (ImageItemAndroid.SingleTapNeverConfirmed).
