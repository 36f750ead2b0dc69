/** The viewer component of src/ImageViewing.tsx: a horizontal pager of
    full-width pages, one per image source, with a header and an optional
    footer whose visibility the user toggles with a tap and a zoom hides. */
module ImageViewing {
  import opened Common
  import ImageIndexChange

  /** An image source: a bundled asset, which is a number, or a remote `{ uri }`. */
  datatype ImageSource = Asset(id: int) | Remote(uri: string)

  /** What `getItemLayout` reports for one page of the list. */
  datatype ItemLayout = ItemLayout(length: real, offset: real, index: int)

  /** `getItemLayout`: every page is one screen `width` long and starts
      `width * index` from the left. */
  function GetItemLayout(width: real, index: int): ItemLayout {
    ItemLayout(width, width * index as real, index)
  }

  /** The pages tile the list: each one starts where the previous one ends. */
  lemma ItemsTileTheList(width: real, index: int)
    ensures GetItemLayout(width, index).index == index
    ensures GetItemLayout(width, index + 1).offset
         == GetItemLayout(width, index).offset + GetItemLayout(width, index).length
    ensures GetItemLayout(width, 0).offset == 0.0
  {
  }

  /** Scrolling to the offset a page reports selects that page again. */
  lemma {:induction false} ItemOffsetSelectsItsPage(current: int, width: real, index: int)
    requires width > 0.0 && index >= 0
    ensures ImageIndexChange.ScrolledIndex(current, GetItemLayout(width, index).offset, width) == index
  {
    assert GetItemLayout(width, index).offset == index as real * width;
    ImageIndexChange.ExactPageOffset(current, index, width);
  }

  // ---------------------------------------------------------------- keys

  predicate IsDigit(c: char) {
    '0' <= c <= '9'
  }

  function DigitChar(d: int): char
    requires 0 <= d < 10
  {
    ('0' as int + d) as char
  }

  function DigitValue(c: char): int {
    c as int - '0' as int
  }

  /** The decimal digits of `n`, most significant first, without leading zeros. */
  function NatToString(n: nat): (s: string)
    ensures |s| > 0 && forall i :: 0 <= i < |s| ==> IsDigit(s[i])
    ensures s[0] == '0' ==> n == 0
  {
    if n < 10 then [DigitChar(n)] else NatToString(n / 10) + [DigitChar(n % 10)]
  }

  /** `${n}` for an integer `n`: its decimal digits, after a `-` when negative. */
  function IntToString(n: int): string {
    if n < 0 then "-" + NatToString(-n) else NatToString(n)
  }

  /** The value of a run of decimal digits. */
  function ParseDigits(s: string): int {
    if |s| == 0 then 0 else ParseDigits(s[..|s| - 1]) * 10 + DigitValue(s[|s| - 1])
  }

  /** The integer a decimal string with an optional leading `-` denotes. */
  function ParseInt(s: string): int {
    if |s| > 0 && s[0] == '-' then -ParseDigits(s[1..]) else ParseDigits(s)
  }

  lemma {:induction false} NatToStringRoundTrip(n: nat)
    ensures ParseDigits(NatToString(n)) == n
  {
    var s := NatToString(n);
    if n < 10 {
      assert s[..|s| - 1] == [];
    } else {
      NatToStringRoundTrip(n / 10);
      assert s[..|s| - 1] == NatToString(n / 10);
    }
  }

  /** Parsing the decimal string of an integer gives the integer back. */
  lemma {:induction false} IntToStringRoundTrip(n: int)
    ensures ParseInt(IntToString(n)) == n
  {
    if n < 0 {
      var s := IntToString(n);
      assert s[1..] == NatToString(-n);
      NatToStringRoundTrip(-n);
    } else {
      NatToStringRoundTrip(n);
    }
  }

  /** The list's `keyExtractor`: the caller's extractor when one is given,
      otherwise the decimal string of an asset number or the remote `uri`. */
  function KeyOf(keyExtractor: Option<(ImageSource, int) -> string>, source: ImageSource, index: int): string {
    if keyExtractor.Some? then keyExtractor.value(source, index)
    else match source
      case Asset(id) => IntToString(id)
      case Remote(uri) => uri
  }

  /** Without an extractor, the key of an asset denotes the asset's number
      (so distinct assets get distinct keys, whatever their position) and the
      key of a remote image is its `uri`; a given extractor is always used. */
  lemma {:induction false} DefaultKeysIdentifySources(source: ImageSource, index: int, other: ImageSource, otherIndex: int)
    ensures source.Asset? ==> ParseInt(KeyOf(None, source, index)) == source.id
    ensures source.Remote? ==> KeyOf(None, source, index) == source.uri
    ensures source.Asset? && other.Asset? && source.id != other.id ==>
      KeyOf(None, source, index) != KeyOf(None, other, otherIndex)
    ensures forall f: (ImageSource, int) -> string :: KeyOf(Some(f), source, index) == f(source, index)
  {
    if source.Asset? {
      IntToStringRoundTrip(source.id);
    }
    if other.Asset? {
      IntToStringRoundTrip(other.id);
    }
  }

  // ---------------------------------------------------------------- controls

  datatype PointerEvents = Auto | NoPointerEvents

  /** The style the header and the footer take: `opacity`, the `top` or
      `bottom` offset and `pointerEvents`. */
  datatype BarStyle = BarStyle(opacity: real, offset: real, pointerEvents: PointerEvents)

  /** Shown bars are opaque, in place and interactive; hidden ones are
      transparent, moved 100 points off screen and let touches through. */
  function BarPlacement(controlsVisible: bool): BarStyle {
    if controlsVisible then BarStyle(1.0, 0.0, Auto) else BarStyle(0.0, -100.0, NoPointerEvents)
  }

  /** A bar takes touches exactly when it can be seen, which is exactly
      when it sits in place. */
  lemma BarTakesTouchesOnlyWhenSeen(controlsVisible: bool)
    ensures var b := BarPlacement(controlsVisible);
      && (b.pointerEvents == Auto <==> controlsVisible)
      && (b.pointerEvents == Auto <==> b.opacity > 0.0)
      && (b.opacity > 0.0 <==> b.offset == 0.0)
      && (!controlsVisible ==> b.offset < 0.0)
  {
  }

  /** What one render shows: the header's style, the footer's style when a
      footer is given, and the index both are rendered with. */
  datatype Frame = Frame(header: BarStyle, footer: Option<BarStyle>, pageIndex: int)

  /** A render: nothing when `visible` is false. */
  function Render(visible: bool, controlsVisible: bool, currentImageIndex: int, hasFooter: bool): Option<Frame> {
    if !visible then None
    else Some(Frame(BarPlacement(controlsVisible),
                    if hasFooter then Some(BarPlacement(controlsVisible)) else None,
                    currentImageIndex))
  }

  /** A hidden viewer renders nothing; a shown one places header and footer
      alike and gives both the current index. */
  lemma RenderShowsBarsTogether(visible: bool, controlsVisible: bool, currentImageIndex: int, hasFooter: bool)
    ensures var f := Render(visible, controlsVisible, currentImageIndex, hasFooter);
      && (f.None? <==> !visible)
      && (f.Some? ==> f.value.pageIndex == currentImageIndex)
      && (f.Some? ==> f.value.header == BarPlacement(controlsVisible))
      && (f.Some? ==> (f.value.footer.Some? <==> hasFooter))
      && (f.Some? && hasFooter ==> f.value.footer.value == f.value.header)
  {
  }

  /** `onLayout`: the page the list is scrolled back to, if any. Only an
      existing list and an index past the first page cause a scroll. */
  function OnLayoutScroll(hasList: bool, currentImageIndex: int): Option<int> {
    if hasList && currentImageIndex > 0 then Some(currentImageIndex) else None
  }

  lemma OnLayoutScrollsOnlyPastFirstPage(hasList: bool, currentImageIndex: int)
    ensures OnLayoutScroll(hasList, currentImageIndex).Some? <==> hasList && currentImageIndex > 0
    ensures OnLayoutScroll(hasList, currentImageIndex).Some? ==>
      OnLayoutScroll(hasList, currentImageIndex).value == currentImageIndex
    ensures OnLayoutScroll(hasList, 0) == None
  {
  }

  /** The two things that write `controlsVisible`. */
  datatype ControlsEvent = ToggleControls | Zoom(isScaled: bool)

  function ControlsStep(controlsVisible: bool, e: ControlsEvent): bool {
    match e
    case ToggleControls => !controlsVisible
    case Zoom(isScaled) => !isScaled
  }

  /** `controlsVisible` after a run of events. */
  function ControlsAfter(controlsVisible: bool, events: seq<ControlsEvent>): bool
    decreases |events|
  {
    if |events| == 0 then controlsVisible
    else ControlsAfter(ControlsStep(controlsVisible, events[0]), events[1..])
  }

  lemma {:induction false} ControlsAfterAppend(controlsVisible: bool, events: seq<ControlsEvent>, more: seq<ControlsEvent>)
    ensures ControlsAfter(controlsVisible, events + more)
         == ControlsAfter(ControlsAfter(controlsVisible, events), more)
    decreases |events|
  {
    if |events| > 0 {
      assert (events + more)[1..] == events[1..] + more;
      ControlsAfterAppend(ControlsStep(controlsVisible, events[0]), events[1..], more);
    } else {
      assert events + more == more;
    }
  }

  /** `n` taps leave the controls as they were when `n` is even and flip
      them when it is odd; in particular two taps restore them. */
  lemma {:induction false} TogglesFlipByParity(controlsVisible: bool, n: nat)
    ensures ControlsAfter(controlsVisible, seq(n, _ => ToggleControls))
         == if n % 2 == 0 then controlsVisible else !controlsVisible
    decreases n
  {
    if n > 0 {
      var taps := seq(n, _ => ToggleControls);
      assert taps[1..] == seq(n - 1, _ => ToggleControls);
      TogglesFlipByParity(!controlsVisible, n - 1);
    }
  }

  /** Whatever came before, a zoom leaves the controls shown exactly when
      the image is no longer scaled. */
  lemma {:induction false} ZoomDecidesControls(controlsVisible: bool, events: seq<ControlsEvent>, isScaled: bool)
    ensures ControlsAfter(controlsVisible, events + [Zoom(isScaled)]) == !isScaled
  {
    ControlsAfterAppend(controlsVisible, events, [Zoom(isScaled)]);
  }

  /** The state of a mounted viewer: the hook's index, the window size,
      `controlsVisible`, the list's `scrollEnabled`, the bars' visibility
      given to `toggleBarsVisible`, the indices `onImageIndexChange` has
      been called with, and the re-scrolls the dimensions listener has
      scheduled and not yet run. */
  class Viewer {
    const tracker: ImageIndexChange.IndexTracker
    const hasOnImageIndexChange: bool
    var dimensions: Dimensions
    var controlsVisible: bool
    var listScrollEnabled: bool
    var barsVisible: bool
    var reportedIndices: seq<int>
    var pendingRescrolls: seq<int>

    /** The index effect has reported the current index last. */
    predicate Valid()
      reads this, tracker
    {
      hasOnImageIndexChange ==>
        |reportedIndices| > 0 && reportedIndices[|reportedIndices| - 1] == tracker.currentImageIndex
    }

    /** The first render and its effects: controls shown, the list
        scrollable and the initial index reported. */
    constructor (imageIndex: int, window: Dimensions, hasOnImageIndexChange: bool)
      ensures Valid()
      ensures fresh(tracker) && tracker.currentImageIndex == imageIndex
      ensures this.hasOnImageIndexChange == hasOnImageIndexChange && dimensions == window
      ensures controlsVisible && listScrollEnabled && barsVisible
      ensures reportedIndices == (if hasOnImageIndexChange then [imageIndex] else [])
      ensures pendingRescrolls == []
    {
      tracker := new ImageIndexChange.IndexTracker(imageIndex);
      this.hasOnImageIndexChange := hasOnImageIndexChange;
      dimensions := window;
      controlsVisible := true;
      listScrollEnabled := true;
      barsVisible := true;
      reportedIndices := if hasOnImageIndexChange then [imageIndex] else [];
      pendingRescrolls := [];
    }

    /** `toggleControls`, the tap on the page overlay. */
    method ToggleControls()
      requires Valid()
      modifies this
      ensures Valid()
      ensures controlsVisible == ControlsStep(old(controlsVisible), ControlsEvent.ToggleControls)
      ensures dimensions == old(dimensions) && listScrollEnabled == old(listScrollEnabled)
      ensures barsVisible == old(barsVisible) && reportedIndices == old(reportedIndices)
      ensures pendingRescrolls == old(pendingRescrolls)
    {
      controlsVisible := !controlsVisible;
    }

    /** `onZoom(isScaled)`: a scaled page stops the list from scrolling and
        hides the bars and the controls; `hasList` says whether the list
        ref is set (the optional chain does nothing otherwise). */
    method OnZoom(isScaled: bool, hasList: bool)
      requires Valid()
      modifies this
      ensures Valid()
      ensures listScrollEnabled == if hasList then !isScaled else old(listScrollEnabled)
      ensures barsVisible == !isScaled
      ensures controlsVisible == ControlsStep(old(controlsVisible), Zoom(isScaled))
      ensures dimensions == old(dimensions) && reportedIndices == old(reportedIndices)
      ensures pendingRescrolls == old(pendingRescrolls)
    {
      if hasList {
        listScrollEnabled := !isScaled;
      }
      barsVisible := !isScaled;
      controlsVisible := !isScaled;
    }

    /** `onMomentumScrollEnd`: the hook moves the index, and the index
        effect reports the new index when it differs from the old one. */
    method OnMomentumScrollEnd(scrollX: real)
      requires Valid()
      modifies this, tracker
      ensures Valid()
      ensures tracker.currentImageIndex
           == ImageIndexChange.ScrolledIndex(old(tracker.currentImageIndex), scrollX, dimensions.width)
      ensures reportedIndices == old(reportedIndices)
        + (if hasOnImageIndexChange && tracker.currentImageIndex != old(tracker.currentImageIndex)
           then [tracker.currentImageIndex] else [])
      ensures dimensions == old(dimensions) && controlsVisible == old(controlsVisible)
      ensures listScrollEnabled == old(listScrollEnabled) && barsVisible == old(barsVisible)
      ensures pendingRescrolls == old(pendingRescrolls)
    {
      var before := tracker.currentImageIndex;
      tracker.OnScroll(scrollX, dimensions.width);
      if hasOnImageIndexChange && tracker.currentImageIndex != before {
        reportedIndices := reportedIndices + [tracker.currentImageIndex];
      }
    }

    /** The `Dimensions` change listener: the window size is stored and,
        when the list exists, a re-scroll to the current index is scheduled. */
    method DimensionsChanged(window: Dimensions, hasList: bool)
      requires Valid()
      modifies this
      ensures Valid()
      ensures dimensions == window
      ensures pendingRescrolls
           == old(pendingRescrolls) + (if hasList then [tracker.currentImageIndex] else [])
      ensures controlsVisible == old(controlsVisible) && listScrollEnabled == old(listScrollEnabled)
      ensures barsVisible == old(barsVisible) && reportedIndices == old(reportedIndices)
    {
      dimensions := window;
      if hasList {
        pendingRescrolls := pendingRescrolls + [tracker.currentImageIndex];
      }
    }

    /** The oldest scheduled re-scroll fires: it scrolls to the index it
        captured, provided the list still exists. */
    method RescrollTimerFires(hasList: bool) returns (scrollTo: Option<int>)
      requires Valid() && |pendingRescrolls| > 0
      modifies this
      ensures Valid()
      ensures scrollTo == if hasList then Some(old(pendingRescrolls)[0]) else None
      ensures pendingRescrolls == old(pendingRescrolls)[1..]
      ensures dimensions == old(dimensions) && controlsVisible == old(controlsVisible)
      ensures listScrollEnabled == old(listScrollEnabled) && barsVisible == old(barsVisible)
      ensures reportedIndices == old(reportedIndices)
    {
      scrollTo := if hasList then Some(pendingRescrolls[0]) else None;
      pendingRescrolls := pendingRescrolls[1..];
    }
  }
}

/** The viewer as compiled in dist/ImageViewing.js: the same pager, keys,
    layout guard and render guard, but no `controlsVisible` state; a zoom
    only locks the list and hides the bars. */
module ImageViewingDist {
  import opened Common
  import ImageIndexChange
  import ImageIndexChangeDist
  import ImageViewing

  /** A render: nothing when `visible` is false, otherwise the index the
      header and the footer are given. */
  function Render(visible: bool, currentImageIndex: int): Option<int> {
    if visible then Some(currentImageIndex) else None
  }

  lemma RenderIsEmptyWhenHidden(visible: bool, currentImageIndex: int)
    ensures Render(visible, currentImageIndex).None? <==> !visible
    ensures Render(visible, currentImageIndex).Some? ==> Render(visible, currentImageIndex).value == currentImageIndex
  {
  }

  /** Scrolling to the offset a page reports selects that page with this
      variant of the hook too. */
  lemma {:induction false} ItemOffsetSelectsItsPage(current: int, width: real, index: int)
    requires width > 0.0 && index >= 0
    ensures ImageIndexChangeDist.ScrolledIndex(current, ImageViewing.GetItemLayout(width, index).offset, width) == index
  {
    var x := ImageViewing.GetItemLayout(width, index).offset;
    assert x / width == index as real;
    RoundUnique(index as real, index);
    assert ImageIndexChange.NearestPage(x, width) == index;
    ImageIndexChangeDist.AgreesWithSourceOnPages(current, x, width);
  }

  /** A mounted dist viewer: the hook's index, the window size, the list's
      `scrollEnabled`, the bars' visibility, the indices reported so far and
      the indices of the re-scroll timers not yet fired, oldest first. */
  class Viewer {
    const tracker: ImageIndexChangeDist.IndexTracker
    const hasOnImageIndexChange: bool
    var dimensions: Dimensions
    var listScrollEnabled: bool
    var barsVisible: bool
    var reportedIndices: seq<int>
    var pendingRescrolls: seq<int>

    predicate Valid()
      reads this, tracker
    {
      hasOnImageIndexChange ==>
        |reportedIndices| > 0 && reportedIndices[|reportedIndices| - 1] == tracker.currentImageIndex
    }

    constructor (imageIndex: int, window: Dimensions, hasOnImageIndexChange: bool)
      ensures Valid()
      ensures fresh(tracker) && tracker.currentImageIndex == imageIndex && tracker.imageIndex == imageIndex
      ensures this.hasOnImageIndexChange == hasOnImageIndexChange && dimensions == window
      ensures listScrollEnabled && barsVisible && pendingRescrolls == []
      ensures reportedIndices == (if hasOnImageIndexChange then [imageIndex] else [])
    {
      tracker := new ImageIndexChangeDist.IndexTracker(imageIndex);
      this.hasOnImageIndexChange := hasOnImageIndexChange;
      dimensions := window;
      listScrollEnabled := true;
      barsVisible := true;
      reportedIndices := if hasOnImageIndexChange then [imageIndex] else [];
      pendingRescrolls := [];
    }

    /** `onZoom(isScaled)`: the list scrolls and the bars show exactly when
        the page is not scaled. */
    method OnZoom(isScaled: bool, hasList: bool)
      requires Valid()
      modifies this
      ensures Valid()
      ensures listScrollEnabled == if hasList then !isScaled else old(listScrollEnabled)
      ensures barsVisible == !isScaled
      ensures dimensions == old(dimensions) && reportedIndices == old(reportedIndices)
      ensures pendingRescrolls == old(pendingRescrolls)
    {
      if hasList {
        listScrollEnabled := !isScaled;
      }
      barsVisible := !isScaled;
    }

    /** `onMomentumScrollEnd` with the event's offset and measured width;
        a change of index is reported. */
    method OnMomentumScrollEnd(scrollX: real, layoutWidth: real)
      requires Valid()
      modifies this, tracker
      ensures Valid()
      ensures tracker.imageIndex == old(tracker.imageIndex)
      ensures tracker.currentImageIndex
           == ImageIndexChangeDist.ScrolledIndex(old(tracker.currentImageIndex), scrollX, layoutWidth)
      ensures reportedIndices == old(reportedIndices)
        + (if hasOnImageIndexChange && tracker.currentImageIndex != old(tracker.currentImageIndex)
           then [tracker.currentImageIndex] else [])
      ensures dimensions == old(dimensions) && pendingRescrolls == old(pendingRescrolls)
      ensures listScrollEnabled == old(listScrollEnabled) && barsVisible == old(barsVisible)
    {
      var updated := tracker.OnScroll(scrollX, layoutWidth);
      if hasOnImageIndexChange && updated {
        reportedIndices := reportedIndices + [tracker.currentImageIndex];
      }
    }

    /** The `Dimensions` change listener: the window size is stored and,
        when the list exists, a re-scroll to the current index is scheduled
        100 ms later. */
    method DimensionsChanged(window: Dimensions, hasList: bool)
      requires Valid()
      modifies this
      ensures Valid()
      ensures dimensions == window
      ensures pendingRescrolls
           == old(pendingRescrolls) + (if hasList then [tracker.currentImageIndex] else [])
      ensures listScrollEnabled == old(listScrollEnabled) && barsVisible == old(barsVisible)
      ensures reportedIndices == old(reportedIndices)
    {
      dimensions := window;
      if hasList {
        pendingRescrolls := pendingRescrolls + [tracker.currentImageIndex];
      }
    }

    /** The oldest scheduled re-scroll fires: it scrolls to the index it
        captured, provided the list still exists. */
    method RescrollTimerFires(hasList: bool) returns (scrollTo: Option<int>)
      requires Valid() && |pendingRescrolls| > 0
      modifies this
      ensures Valid()
      ensures scrollTo == if hasList then Some(old(pendingRescrolls)[0]) else None
      ensures pendingRescrolls == old(pendingRescrolls)[1..]
      ensures dimensions == old(dimensions) && listScrollEnabled == old(listScrollEnabled)
      ensures barsVisible == old(barsVisible) && reportedIndices == old(reportedIndices)
    {
      scrollTo := if hasList then Some(pendingRescrolls[0]) else None;
      pendingRescrolls := pendingRescrolls[1..];
    }
  }
}
