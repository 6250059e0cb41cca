/**
 * The two pure image steps of the Android plugin, on bitmap sizes:
 * `resizeBitmap` (the target-size policy) and `fixOrientation` (the Exif
 * Orientation tag and the rotation or flip it selects).  Pixels themselves
 * are the graphics library's business; what the model keeps of a transform is
 * where it sends each pixel position.
 */
module AndroidImage {
  import opened Wrappers

  type Extent = x: int | 1 <= x witness 1

  /** A decoded bitmap, as far as the plugin looks at it: its size in pixels. */
  datatype Bitmap = Bitmap(width: Extent, height: Extent)

  /** The message of the IllegalArgumentException `Bitmap.createScaledBitmap` throws for an empty size. */
  const EmptyBitmapMessage: string := "width and height must be > 0"

  /** `Bitmap.createScaledBitmap(bitmap, w, h, true)`: a bitmap of exactly that size, or the exception. */
  function ScaledBitmap(w: int, h: int): (r: Result<Bitmap, string>)
    ensures r.Success? <==> w > 0 && h > 0
    ensures r.Success? ==> r.value.width == w && r.value.height == h
    ensures r.Failure? ==> r.error == EmptyBitmapMessage
  {
    if w > 0 && h > 0 then Success(Bitmap(w, h)) else Failure(EmptyBitmapMessage)
  }

  /** `n` is `num / den` rounded toward zero, for non-negative `num` and positive `den`. */
  predicate TruncatedQuotient(n: int, num: int, den: int)
  {
    n * den <= num < (n + 1) * den
  }

  lemma QuotientBounds(num: nat, den: Extent)
    ensures TruncatedQuotient(num / den, num, den)
    ensures num / den > 0 <==> num >= den
  {
  }

  /**
   * `resizeBitmap(bitmap, targetWidth, targetHeight)`.  Both targets positive:
   * exactly that size, aspect ratio not kept.  One target positive: that side
   * is the target and the other side is scaled by the same ratio and truncated
   * (the source computes the ratio in `float`; the model computes it exactly).
   * Neither: the bitmap itself.
   */
  function ResizeBitmap(b: Bitmap, targetWidth: int, targetHeight: int): (r: Result<Bitmap, string>)
    ensures targetWidth > 0 && targetHeight > 0 ==> r == Success(Bitmap(targetWidth, targetHeight))
    ensures targetWidth > 0 && targetHeight <= 0 ==>
      && (r.Success? <==> b.height * targetWidth >= b.width)
      && (r.Success? ==> r.value.width == targetWidth
                         && TruncatedQuotient(r.value.height, b.height * targetWidth, b.width))
    ensures targetWidth <= 0 && targetHeight > 0 ==>
      && (r.Success? <==> b.width * targetHeight >= b.height)
      && (r.Success? ==> r.value.height == targetHeight
                         && TruncatedQuotient(r.value.width, b.width * targetHeight, b.height))
    ensures targetWidth <= 0 && targetHeight <= 0 ==> r == Success(b)
    ensures r.Failure? ==> r.error == EmptyBitmapMessage
  {
    if targetWidth > 0 && targetHeight > 0 then
      ScaledBitmap(targetWidth, targetHeight)
    else if targetWidth > 0 then
      QuotientBounds(b.height * targetWidth, b.width);
      ScaledBitmap(targetWidth, (b.height * targetWidth) / b.width)
    else if targetHeight > 0 then
      QuotientBounds(b.width * targetHeight, b.height);
      ScaledBitmap((b.width * targetHeight) / b.height, targetHeight)
    else
      Success(b)
  }

  /** 4000x3000 scaled to width 800 is 800x600; scaled to 500x500 it is 500x500. */
  lemma ResizeExample()
    ensures ResizeBitmap(Bitmap(4000, 3000), 800, 0) == Success(Bitmap(800, 600))
    ensures ResizeBitmap(Bitmap(4000, 3000), 500, 500) == Success(Bitmap(500, 500))
  {
  }

  /** A single-side resize keeps the aspect ratio up to the truncated pixel. */
  lemma {:induction false} WidthResizeKeepsAspect(b: Bitmap, targetWidth: int, targetHeight: int)
    requires targetWidth > 0 && targetHeight <= 0
    requires ResizeBitmap(b, targetWidth, targetHeight).Success?
    ensures var r := ResizeBitmap(b, targetWidth, targetHeight).value;
      r.height * b.width <= b.height * r.width < (r.height + 1) * b.width
  {
  }

  // ---------------------------------------------------------------- orientation

  /** Values of the Exif Orientation tag (0x0112), section 4.6.4 A of Exif 2.3. */
  const OrientationNormal: int := 1
  const OrientationFlipHorizontal: int := 2
  const OrientationRotate180: int := 3
  const OrientationFlipVertical: int := 4
  const OrientationTranspose: int := 5
  const OrientationRotate90: int := 6
  const OrientationTransverse: int := 7
  const OrientationRotate270: int := 8

  /** What reading the Exif data of the source file gave. */
  datatype ExifRead =
    | ExifUnreadable                 // the IOException `fixOrientation` catches
    | ExifRead(tag: Option<int>)     // the Orientation tag, if the file has one that reads as an integer

  /** The matrix `fixOrientation` builds: a clockwise rotation, a mirror image, or nothing. */
  datatype Transform = Identity | Rotate90 | Rotate180 | Rotate270 | FlipHorizontal | FlipVertical

  /** The `switch` of `fixOrientation`: every value it does not list leaves the bitmap alone. */
  function TransformFor(tag: int): (t: Transform)
    ensures t == Identity <==> tag !in {2, 3, 4, 6, 8}
  {
    if tag == OrientationRotate90 then Rotate90
    else if tag == OrientationRotate180 then Rotate180
    else if tag == OrientationRotate270 then Rotate270
    else if tag == OrientationFlipHorizontal then FlipHorizontal
    else if tag == OrientationFlipVertical then FlipVertical
    else Identity
  }

  /** `Bitmap.createBitmap(bitmap, 0, 0, w, h, matrix, true)`: the size of the transformed bitmap. */
  function Apply(t: Transform, b: Bitmap): (r: Bitmap)
    ensures r.width * r.height == b.width * b.height
  {
    match t
    case Rotate90 | Rotate270 => Bitmap(b.height, b.width)
    case _ => b
  }

  /**
   * `fixOrientation(bitmap, path)`: the tag (Orientation Normal when the file
   * has none) selects the transform; an unreadable file leaves the bitmap as
   * it is and is not an error.
   */
  function FixOrientation(b: Bitmap, exif: ExifRead): (r: Bitmap)
    ensures exif.ExifUnreadable? ==> r == b
    ensures exif.ExifRead? && exif.tag.Some? && exif.tag.value in {6, 8} ==>
      r.width == b.height && r.height == b.width
    ensures !(exif.ExifRead? && exif.tag.Some? && exif.tag.value in {6, 8}) ==> r == b
  {
    match exif
    case ExifUnreadable => b
    case ExifRead(tag) => Apply(TransformFor(tag.GetOrDefault(OrientationNormal)), b)
  }

  predicate InGrid(b: Bitmap, x: int, y: int)
  {
    0 <= x < b.width && 0 <= y < b.height
  }

  /** Where the transform puts the source pixel at column `x`, row `y` (rows grow downwards). */
  function TargetOf(t: Transform, b: Bitmap, x: int, y: int): (int, int)
  {
    match t
    case Identity => (x, y)
    case Rotate90 => (b.height - 1 - y, x)
    case Rotate180 => (b.width - 1 - x, b.height - 1 - y)
    case Rotate270 => (y, b.width - 1 - x)
    case FlipHorizontal => (b.width - 1 - x, y)
    case FlipVertical => (x, b.height - 1 - y)
  }

  /** Which source pixel the transform puts at column `x`, row `y` of its result. */
  function SourceOf(t: Transform, b: Bitmap, x: int, y: int): (int, int)
  {
    match t
    case Identity => (x, y)
    case Rotate90 => (y, b.height - 1 - x)
    case Rotate180 => (b.width - 1 - x, b.height - 1 - y)
    case Rotate270 => (b.width - 1 - y, x)
    case FlipHorizontal => (b.width - 1 - x, y)
    case FlipVertical => (x, b.height - 1 - y)
  }

  /** Every transform moves each pixel of the source to exactly one pixel of the result and back. */
  lemma TransformIsBijection(t: Transform, b: Bitmap, x: int, y: int)
    ensures InGrid(b, x, y) ==>
      var (x', y') := TargetOf(t, b, x, y);
      InGrid(Apply(t, b), x', y') && SourceOf(t, b, x', y') == (x, y)
    ensures InGrid(Apply(t, b), x, y) ==>
      var (x', y') := SourceOf(t, b, x, y);
      InGrid(b, x', y') && TargetOf(t, b, x', y') == (x, y)
  {
  }

  /** A horizontal flip keeps the size and reverses the order of the columns. */
  lemma FlipReversesColumns(b: Bitmap, x: int, y: int)
    requires InGrid(b, x, y)
    ensures Apply(FlipHorizontal, b) == b
    ensures TargetOf(FlipHorizontal, b, x, y) == (b.width - 1 - x, y)
  {
  }

  /** The sides of the displayed image. */
  datatype Side = Top | Bottom | LeftSide | RightSide

  /** Section 4.6.4 A of Exif 2.3: the side of the displayed image where the stored 0th row belongs. */
  function RowZeroSide(tag: int): Side
    requires 1 <= tag <= 8
  {
    if tag in {1, 2} then Top
    else if tag in {3, 4} then Bottom
    else if tag in {5, 8} then LeftSide
    else RightSide
  }

  /** Section 4.6.4 A of Exif 2.3: the side of the displayed image where the stored 0th column belongs. */
  function ColumnZeroSide(tag: int): Side
    requires 1 <= tag <= 8
  {
    if tag in {1, 4} then LeftSide
    else if tag in {2, 3} then RightSide
    else if tag in {5, 6} then Top
    else Bottom
  }

  predicate OnSide(b: Bitmap, side: Side, p: (int, int))
  {
    match side
    case Top => p.1 == 0
    case Bottom => p.1 == b.height - 1
    case LeftSide => p.0 == 0
    case RightSide => p.0 == b.width - 1
  }

  /**
   * For every tag `fixOrientation` handles, the transform it picks puts the
   * stored 0th row and 0th column where Exif says they belong: the result is upright.
   */
  lemma CorrectedTagsAreUpright(tag: int, b: Bitmap, x: int, y: int)
    requires tag in {1, 2, 3, 4, 6, 8}
    ensures var t := TransformFor(tag);
      && (0 <= x < b.width ==> OnSide(Apply(t, b), RowZeroSide(tag), TargetOf(t, b, x, 0)))
      && (0 <= y < b.height ==> OnSide(Apply(t, b), ColumnZeroSide(tag), TargetOf(t, b, 0, y)))
  {
  }

  /**
   * Transpose (5) and transverse (7) fall to the `default` branch: the stored
   * 0th row stays at the top although Exif puts it on a side, so such an image
   * (at least two pixels wide) is left sideways.
   */
  lemma TransposedTagsStaySideways(tag: int, b: Bitmap)
    requires tag in {5, 7} && b.width >= 2
    ensures TransformFor(tag) == Identity
    ensures !forall x :: 0 <= x < b.width ==>
      OnSide(Apply(TransformFor(tag), b), RowZeroSide(tag), TargetOf(TransformFor(tag), b, x, 0))
  {
    // on the left side only column 0 lies, on the right side only the last column
    var x := if tag == OrientationTranspose then 1 else 0;
    assert !OnSide(Apply(Identity, b), RowZeroSide(tag), TargetOf(Identity, b, x, 0));
  }
}
