/** The geometry helpers of `utils` (src/utils.ts; dist/utils.js is the same
    code compiled to JavaScript): fitting an image into the screen, centring
    it, recovering the displayed size from a centring translate, rescaling,
    and the distance between the first two touches. */
module Utils {
  import opened Common

  /** What `getImageTransform` returns: a translate and a scale. */
  datatype Transform = Transform(translate: Point, scale: real)

  /** `!image?.width || !image?.height`: no image, or a width or height of 0. */
  predicate Unmeasured(image: Option<Dimensions>) {
    image.None? || image.value.width == 0.0 || image.value.height == 0.0
  }

  predicate Positive(d: Dimensions) {
    d.width > 0.0 && d.height > 0.0
  }

  /** The largest scale at which the whole image still fits the screen:
      `Math.min(screen.width / image.width, screen.height / image.height)`. */
  function FitScale(image: Dimensions, screen: Dimensions): real
    requires image.width != 0.0 && image.height != 0.0
  {
    Min(screen.width / image.width, screen.height / image.height)
  }

  /** Both sides of `size` multiplied by `k` (`image.width * scale`, `width * targetScale`). */
  function ScaleBy(size: Dimensions, k: real): Dimensions {
    Dimensions(size.width * k, size.height * k)
  }

  /** The translate that puts a box of the given size in the middle of the screen. */
  function Centre(size: Dimensions, screen: Dimensions): Point {
    Point((screen.width - size.width) / 2.0, (screen.height - size.height) / 2.0)
  }

  /** `getImageTransform`: scale the image to fit the screen and centre it;
      an unmeasured image gets the identity transform. */
  function GetImageTransform(image: Option<Dimensions>, screen: Dimensions): (t: Transform)
    ensures Unmeasured(image) ==> t == Transform(Point(0.0, 0.0), 1.0)
    ensures !Unmeasured(image) ==> t.scale == FitScale(image.value, screen)
  {
    if Unmeasured(image) then
      Transform(Point(0.0, 0.0), 1.0)
    else
      var scale := FitScale(image.value, screen);
      Transform(Centre(ScaleBy(image.value, scale), screen), scale)
  }

  /** `getImageTranslate`: the centring translate alone. */
  function GetImageTranslate(image: Dimensions, screen: Dimensions): Point {
    if image.width == 0.0 || image.height == 0.0 then
      Point(0.0, 0.0)
    else
      Centre(ScaleBy(image, FitScale(image, screen)), screen)
  }

  /** `getImageDimensionsByTranslate`: the size of an image centred by `translate`. */
  function GetImageDimensionsByTranslate(translate: Point, screen: Dimensions): Dimensions {
    Dimensions(screen.width - translate.x * 2.0, screen.height - translate.y * 2.0)
  }

  /** `getImageTranslateForScale`: recover the displayed size, scale it, centre it again. */
  function GetImageTranslateForScale(current: Point, targetScale: real, screen: Dimensions): Point {
    GetImageTranslate(ScaleBy(GetImageDimensionsByTranslate(current, screen), targetScale), screen)
  }

  /** The size at which the image is displayed once fitted (the screen itself when unmeasured). */
  function FittedSize(image: Dimensions, screen: Dimensions): Dimensions {
    if image.width == 0.0 || image.height == 0.0 then screen
    else ScaleBy(image, FitScale(image, screen))
  }

  lemma MulMono(c: real, a: real, b: real)
    requires c >= 0.0 && a <= b
    ensures c * a <= c * b
  {
  }

  lemma QuotientTimesDivisor(a: real, w: real)
    requires w != 0.0
    ensures w * (a / w) == a
  {
  }

  /** For positive sizes the fit scale is `min(sw/iw, sh/ih)`: the scaled image
      stays inside the screen, touches it on at least one side, and the
      translate centres it with margins that are not negative, one of them 0. */
  lemma {:induction false} FitsAndCentres(image: Dimensions, screen: Dimensions)
    requires Positive(image) && Positive(screen)
    ensures var t := GetImageTransform(Some(image), screen);
      && t.scale == Min(screen.width / image.width, screen.height / image.height)
      && t.scale > 0.0
      && image.width * t.scale <= screen.width
      && image.height * t.scale <= screen.height
      && (image.width * t.scale == screen.width || image.height * t.scale == screen.height)
      && t.translate == Point((screen.width - image.width * t.scale) / 2.0,
                              (screen.height - image.height * t.scale) / 2.0)
      && t.translate.x >= 0.0 && t.translate.y >= 0.0
      && (t.translate.x == 0.0 || t.translate.y == 0.0)
  {
    var ws, hs := screen.width / image.width, screen.height / image.height;
    QuotientTimesDivisor(screen.width, image.width);
    QuotientTimesDivisor(screen.height, image.height);
    var s := FitScale(image, screen);
    if ws <= hs {
      assert s == ws;
      MulMono(image.height, ws, hs);
    } else {
      assert s == hs;
      MulMono(image.width, hs, ws);
    }
  }

  /** `getImageTranslate` gives the translate of `getImageTransform`. */
  lemma TranslateMatchesTransform(image: Dimensions, screen: Dimensions)
    ensures GetImageTranslate(image, screen) == GetImageTransform(Some(image), screen).translate
  {
  }

  /** `getImageDimensionsByTranslate` undoes centring: the size a centring
      translate stands for is the size that was centred. */
  lemma DimensionsByTranslateInvertsCentre(size: Dimensions, screen: Dimensions)
    ensures GetImageDimensionsByTranslate(Centre(size, screen), screen) == size
  {
  }

  /** Read back through `getImageDimensionsByTranslate`, the translate of
      `getImageTranslate` gives the fitted size of the image. */
  lemma {:induction false} DimensionsByTranslateRecoversFit(image: Dimensions, screen: Dimensions)
    ensures GetImageDimensionsByTranslate(GetImageTranslate(image, screen), screen)
         == FittedSize(image, screen)
  {
    if image.width != 0.0 && image.height != 0.0 {
      DimensionsByTranslateInvertsCentre(FittedSize(image, screen), screen);
    }
  }

  lemma NonZeroProduct(w: real, k: real)
    requires w != 0.0 && k != 0.0
    ensures w * k != 0.0
  {
  }

  lemma DivByProduct(a: real, w: real, k: real)
    requires w != 0.0 && k != 0.0
    ensures a / (w * k) == (a / w) / k
  {
  }

  lemma MinOfQuotients(a: real, b: real, k: real)
    requires k > 0.0
    ensures Min(a / k, b / k) == Min(a, b) / k
  {
    if a <= b {
      MulMono(1.0 / k, a, b);
    } else {
      MulMono(1.0 / k, b, a);
    }
  }

  lemma ProductOfQuotient(w: real, k: real, m: real)
    requires k != 0.0
    ensures (w * k) * (m / k) == w * m
  {
  }

  /** Scaling an image by `k > 0` does not change its fit: the fit scale
      shrinks by `k` and the displayed size stays the same. */
  lemma {:induction false} ScaledImageSameFit(image: Dimensions, k: real, screen: Dimensions)
    requires k > 0.0 && image.width != 0.0 && image.height != 0.0
    ensures ScaleBy(image, k).width != 0.0 && ScaleBy(image, k).height != 0.0
    ensures FitScale(ScaleBy(image, k), screen) == FitScale(image, screen) / k
    ensures ScaleBy(ScaleBy(image, k), FitScale(ScaleBy(image, k), screen))
         == ScaleBy(image, FitScale(image, screen))
  {
    var scaled := ScaleBy(image, k);
    NonZeroProduct(image.width, k);
    NonZeroProduct(image.height, k);
    var a, b := screen.width / image.width, screen.height / image.height;
    DivByProduct(screen.width, image.width, k);
    DivByProduct(screen.height, image.height, k);
    assert screen.width / scaled.width == a / k;
    assert screen.height / scaled.height == b / k;
    MinOfQuotients(a, b, k);
    var m := Min(a, b);
    assert FitScale(scaled, screen) == m / k;
    ProductOfQuotient(image.width, k, m);
    ProductOfQuotient(image.height, k, m);
  }

  /** Centring an image scaled by `k > 0` gives the translate of the unscaled image. */
  lemma {:induction false} ScaledImageSameTranslate(image: Dimensions, k: real, screen: Dimensions)
    requires k > 0.0
    ensures GetImageTranslate(ScaleBy(image, k), screen) == GetImageTranslate(image, screen)
  {
    if image.width != 0.0 && image.height != 0.0 {
      ScaledImageSameFit(image, k, screen);
    }
  }

  /** `getImageTranslateForScale` does not depend on a positive target scale. */
  lemma {:induction false} TranslateForScaleIgnoresScale(current: Point, k: real, screen: Dimensions)
    requires k > 0.0
    ensures GetImageTranslateForScale(current, k, screen)
         == GetImageTranslateForScale(current, 1.0, screen)
  {
    var size := GetImageDimensionsByTranslate(current, screen);
    ScaledImageSameTranslate(size, k, screen);
    assert ScaleBy(size, 1.0) == size;
  }

  /** A target scale of 0 collapses the image and so yields the zero translate. */
  lemma TranslateForZeroScale(current: Point, screen: Dimensions)
    ensures GetImageTranslateForScale(current, 0.0, screen) == Point(0.0, 0.0)
  {
  }

  /** An image exactly the size of the screen is centred at the origin. */
  lemma {:induction false} ScreenSizedImageIsNotMoved(screen: Dimensions)
    requires Positive(screen)
    ensures GetImageTranslate(screen, screen) == Point(0.0, 0.0)
  {
    assert screen.width / screen.width == 1.0;
    assert screen.height / screen.height == 1.0;
    assert FitScale(screen, screen) == 1.0;
    assert ScaleBy(screen, 1.0) == screen;
  }

  /** Re-centring a fitted image does not move it: fed the translate of
      `getImageTranslate`, `getImageTranslateForScale` returns it unchanged. */
  lemma {:induction false} TranslateForScaleKeepsFittedTranslate(image: Dimensions, k: real, screen: Dimensions)
    requires k > 0.0 && Positive(screen)
    requires image.width == 0.0 || image.height == 0.0 || Positive(image)
    ensures GetImageTranslateForScale(GetImageTranslate(image, screen), k, screen)
         == GetImageTranslate(image, screen)
  {
    var t := GetImageTranslate(image, screen);
    var size := GetImageDimensionsByTranslate(t, screen);
    DimensionsByTranslateRecoversFit(image, screen);
    ScaledImageSameTranslate(size, k, screen);
    if image.width == 0.0 || image.height == 0.0 {
      ScreenSizedImageIsNotMoved(screen);
    } else {
      var s := FitScale(image, screen);
      FitsAndCentres(image, screen);
      ScaledImageSameTranslate(image, s, screen);
    }
  }

  /** `getDistanceBetweenTouches`: 0 unless there are two touches, otherwise
      `root`, which the caller supplies as `Math.sqrt` of the squared gap. */
  function DistanceBetweenTouches(touches: seq<Point>, root: real): (d: real)
    requires |touches| >= 2 ==> root >= 0.0 && root * root == SquaredGap(touches[0], touches[1])
    ensures d >= 0.0
    ensures |touches| < 2 ==> d == 0.0
    ensures |touches| >= 2 ==> d * d == SquaredGap(touches[0], touches[1])
  {
    if |touches| < 2 then 0.0 else root
  }
}
