/**
 * The two image operations of the iOS plugin, `fixOrientation` and
 * `resizeImage`, on what they look at and change: the size of a `UIImage`
 * in points, its scale and its orientation flag. Pixels are not modelled.
 */
module IosImage {
  import opened Wrappers
  import opened Options
  import AndroidImage

  /** A positive length in points (`CGFloat`; the model uses exact reals). */
  type Length = x: real | x > 0.0 witness 1.0

  datatype Size = Size(width: Length, height: Length)

  /** `UIImage.Orientation`: how the stored pixels must be turned to be seen upright. */
  datatype Orientation = Up | Down | Left | Right | UpMirrored | DownMirrored | LeftMirrored | RightMirrored

  /** A `UIImage`: `size` is already given in the orientation it is displayed in. */
  datatype UIImage = UIImage(size: Size, scale: Length, orientation: Orientation)

  /**
   * `fixOrientation(image)`: an upright image is returned as it is; any other
   * is drawn into a context of the same size and scale, which yields an
   * upright copy. `drawn` says whether the context produced an image; when it
   * does not, the input comes back unchanged.
   */
  function FixOrientation(image: UIImage, drawn: bool): (r: UIImage)
    ensures r.size == image.size && r.scale == image.scale
    ensures r.orientation == Up <==> image.orientation == Up || drawn
    ensures r.orientation != Up ==> r == image
  {
    if image.orientation == Up then image
    else if drawn then UIImage(image.size, image.scale, Up)
    else image
  }

  /** Correcting twice changes nothing more than correcting once. */
  lemma FixOrientationIdempotent(image: UIImage, first: bool, second: bool)
    ensures FixOrientation(FixOrientation(image, first), second) ==
            FixOrientation(image, first || (image.orientation != Up && second))
  {
  }

  /**
   * The size `resizeImage` draws into: both targets positive gives exactly
   * that size; one positive target scales the other side by the same ratio
   * (not rounded); none gives no new size.
   */
  function ResizedSize(s: Size, targetWidth: int, targetHeight: int): (r: Option<Size>)
    ensures r.Some? <==> targetWidth > 0 || targetHeight > 0
    ensures r.Some? && targetWidth > 0 ==> r.value.width == targetWidth as real
    ensures r.Some? && targetHeight > 0 ==> r.value.height == targetHeight as real
  {
    if targetWidth > 0 && targetHeight > 0 then
      Some(Size(targetWidth as real, targetHeight as real))
    else if targetWidth > 0 then
      var ratio := targetWidth as real / s.width;
      Some(Size(targetWidth as real, s.height * ratio))
    else if targetHeight > 0 then
      var ratio := targetHeight as real / s.height;
      Some(Size(s.width * ratio, targetHeight as real))
    else
      None
  }

  /** With one target, the new size has exactly the proportions of the old one. */
  lemma ResizeKeepsAspect(s: Size, targetWidth: int, targetHeight: int)
    requires (targetWidth > 0) != (targetHeight > 0)
    ensures var r := ResizedSize(s, targetWidth, targetHeight).value;
      r.width * s.height == r.height * s.width
  {
  }

  /**
   * `resizeImage(image, targetWidth, targetHeight)`: the image drawn at the
   * new size into a context of scale 1, which yields an upright image; with
   * no new size, or when the context yields nothing, the input image.
   */
  function ResizeImage(image: UIImage, targetWidth: int, targetHeight: int, drawn: bool): (r: UIImage)
    ensures ResizedSize(image.size, targetWidth, targetHeight).Some? && drawn ==>
      r == UIImage(ResizedSize(image.size, targetWidth, targetHeight).value, 1.0, Up)
    ensures ResizedSize(image.size, targetWidth, targetHeight).None? || !drawn ==> r == image
  {
    match ResizedSize(image.size, targetWidth, targetHeight)
    case None => image
    case Some(size) => if drawn then UIImage(size, 1.0, Up) else image
  }

  /** `Int(image.size.width)` and `Int(image.size.height)`: the dimensions the response reports. */
  function ReportedWidth(image: UIImage): (n: nat)
    ensures n as real <= image.size.width < n as real + 1.0
  {
    TruncateReal(image.size.width)
  }

  function ReportedHeight(image: UIImage): (n: nat)
    ensures n as real <= image.size.height < n as real + 1.0
  {
    TruncateReal(image.size.height)
  }

  /** Dividing exact reals and truncating agrees with integer division. */
  lemma TruncatedDivision(num: nat, den: AndroidImage.Extent)
    ensures TruncateReal(num as real / den as real) == num / den
  {
    var q := num / den;
    var r := num % den;
    assert num == q * den + r;
    assert num as real / den as real == q as real + r as real / den as real;
    assert 0.0 <= r as real / den as real < 1.0;
  }

  /**
   * For an image of whole-point size resized by width only, iOS reports the
   * same height as Android computes for the same bitmap, and reports 0 exactly
   * where Android fails with an empty bitmap.
   */
  lemma {:induction false} WidthResizeMatchesAndroid(w: AndroidImage.Extent, h: AndroidImage.Extent, targetWidth: int)
    requires targetWidth > 0
    ensures var image := UIImage(Size(w as real, h as real), 1.0, Up);
      var ios := ResizeImage(image, targetWidth, 0, true);
      var android := AndroidImage.ResizeBitmap(AndroidImage.Bitmap(w, h), targetWidth, 0);
      && ReportedWidth(ios) == targetWidth
      && (android.Success? <==> ReportedHeight(ios) > 0)
      && (android.Success? ==> android.value.height == ReportedHeight(ios))
  {
    var image := UIImage(Size(w as real, h as real), 1.0, Up);
    var ios := ResizeImage(image, targetWidth, 0, true);
    assert ios.size.height == (h * targetWidth) as real / w as real;
    TruncatedDivision(h * targetWidth, w);
    AndroidImage.QuotientBounds(h * targetWidth, w);
  }
}
