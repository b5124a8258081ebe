/**
 * The integer arithmetic of the image loader: the downsample factor handed to the
 * bitmap decoder, the fallback chain that decides how large a view wants its image,
 * and the byte budget of the memory cache.
 */
module Sampling {

  const INT_MAX: int := 0x7fff_ffff
  const INT_MIN: int := -0x8000_0000
  const LONG_MAX: int := 0x7fff_ffff_ffff_ffff

  /**
   * Java's `Math.round(a * 1.0f / b)`, with exact arithmetic in place of float:
   * the quotient rounded to the nearest integer, halves rounded upward.
   * Dividing by zero gives an infinity, which `Math.round` saturates to the int
   * range, or NaN (for 0/0), which it rounds to 0.
   */
  function RoundRatio(a: int, b: int): (r: int) {
    if b > 0 then (2 * a + b) / (2 * b)
    else if b < 0 then (-2 * a - b) / (-2 * b)
    else if a > 0 then INT_MAX
    else if a < 0 then INT_MIN
    else 0
  }

  /** RoundRatio is the integer nearest to a / b, halves going up, for either sign of b. */
  lemma RoundRatioIsNearest(a: int, b: int)
    ensures b > 0 ==> (2 * RoundRatio(a, b) - 1) * b <= 2 * a < (2 * RoundRatio(a, b) + 1) * b
    ensures b < 0 ==> (2 * RoundRatio(a, b) + 1) * b < 2 * a <= (2 * RoundRatio(a, b) - 1) * b
    ensures b == 0 ==> RoundRatio(a, b) == (if a > 0 then INT_MAX else if a < 0 then INT_MIN else 0)
  {
  }

  /** The decoded image already fits the requested box: no downsampling is needed. */
  predicate Fits(width: int, height: int, reqWidth: int, reqHeight: int) {
    width <= reqWidth && height <= reqHeight
  }

  /**
   * calculateInSampleSize: 1 when the image fits the requested box, otherwise the
   * larger of the two rounded ratios (the dimension that overflows most decides).
   */
  function SampleSize(width: int, height: int, reqWidth: int, reqHeight: int): (r: int)
    ensures Fits(width, height, reqWidth, reqHeight) ==> r == 1
    ensures !Fits(width, height, reqWidth, reqHeight) ==>
      && r >= RoundRatio(width, reqWidth)
      && r >= RoundRatio(height, reqHeight)
      && (r == RoundRatio(width, reqWidth) || r == RoundRatio(height, reqHeight))
    ensures reqWidth > 0 && reqHeight > 0 ==> r >= 1
  {
    if Fits(width, height, reqWidth, reqHeight) then 1
    else
      RoundRatioIsNearest(width, reqWidth);
      RoundRatioIsNearest(height, reqHeight);
      var widthRatio := RoundRatio(width, reqWidth);
      var heightRatio := RoundRatio(height, reqHeight);
      if widthRatio >= heightRatio then widthRatio else heightRatio
  }

  /** The asymmetric case: the wider side decides, so a 1000x500 image for a 100x100 box is sampled by 10. */
  lemma WidthDecidesSampleSize()
    ensures SampleSize(1000, 500, 100, 100) == 10
  {
  }

  /**
   * The first positive value of a fallback chain, or its last candidate when none
   * is positive: a variable assigned the first candidate and overwritten by the
   * next one while it is `<= 0`.
   */
  function FirstPositive(candidates: seq<int>): (r: int)
    requires candidates != []
    ensures r > 0 <==> exists i :: 0 <= i < |candidates| && candidates[i] > 0
    ensures r > 0 ==> exists i :: 0 <= i < |candidates| && candidates[i] == r &&
                                  forall j :: 0 <= j < i ==> candidates[j] <= 0
    ensures r <= 0 ==> r == candidates[|candidates| - 1]
  {
    if candidates[0] > 0 || |candidates| == 1 then candidates[0]
    else
      var tail := candidates[1..];
      var r := FirstPositive(tail);
      assert forall i :: 0 <= i < |tail| ==> tail[i] == candidates[i + 1];
      r
  }

  /** The measurements of an ImageView that getImageViewSize consults. */
  datatype ViewMetrics = ViewMetrics(
    width: int, height: int,              // getWidth(), getHeight(): the laid-out size
    layoutWidth: int, layoutHeight: int,  // LayoutParams.width / height
    maxWidth: int, maxHeight: int)        // getMaxWidth(), getMaxHeight()

  /** DisplayMetrics.widthPixels / heightPixels of the screen. */
  datatype DisplayMetrics = DisplayMetrics(widthPixels: int, heightPixels: int)

  datatype ImageSize = ImageSize(width: int, height: int)

  /** One four-step chain of getImageViewSize: keep a value once it is positive. */
  function Fallback(first: int, second: int, third: int, last: int): (r: int)
    ensures r == FirstPositive([first, second, third, last])
  {
    assert [first, second, third, last][1..] == [second, third, last];
    assert [second, third, last][1..] == [third, last];
    assert [third, last][1..] == [last];
    assert FirstPositive([third, last]) == if third > 0 then third else last;
    assert FirstPositive([second, third, last]) ==
      if second > 0 then second else FirstPositive([third, last]);
    var r := first;
    var r := if r <= 0 then second else r;
    var r := if r <= 0 then third else r;
    if r <= 0 then last else r
  }

  /**
   * getImageViewSize exactly as written: the height chain starts from the view's
   * laid-out WIDTH, not its height.
   */
  function ImageViewSizeAsWritten(view: ViewMetrics, display: DisplayMetrics): (s: ImageSize)
    ensures s.width == FirstPositive([view.width, view.layoutWidth, view.maxWidth, display.widthPixels])
    ensures s.height == FirstPositive([view.width, view.layoutHeight, view.maxHeight, display.heightPixels])
  {
    ImageSize(
      Fallback(view.width, view.layoutWidth, view.maxWidth, display.widthPixels),
      Fallback(view.width, view.layoutHeight, view.maxHeight, display.heightPixels))
  }

  /**
   * getImageViewSize as intended: each dimension is the first positive value among
   * the laid-out size, the layout parameter, the maximum and the screen size, so a
   * screen of positive size always gives a positive box.
   */
  function ImageViewSize(view: ViewMetrics, display: DisplayMetrics): (s: ImageSize)
    ensures s.width == FirstPositive([view.width, view.layoutWidth, view.maxWidth, display.widthPixels])
    ensures s.height == FirstPositive([view.height, view.layoutHeight, view.maxHeight, display.heightPixels])
    ensures display.widthPixels > 0 ==> s.width > 0
    ensures display.heightPixels > 0 ==> s.height > 0
  {
    ImageSize(
      Fallback(view.width, view.layoutWidth, view.maxWidth, display.widthPixels),
      Fallback(view.height, view.layoutHeight, view.maxHeight, display.heightPixels))
  }

  /**
   * The defect of the height chain: a laid-out view that is not square gets its
   * width as the height of its decode box.
   */
  lemma HeightChainReadsWidth(view: ViewMetrics, display: DisplayMetrics)
    requires view.width > 0 && view.height > 0 && view.width != view.height
    ensures ImageViewSizeAsWritten(view, display).height == view.width
    ensures ImageViewSize(view, display).height == view.height
  {
  }

  /** A 100x300 laid-out view: decoded for a 100x100 box instead of 100x300. */
  lemma TallViewGetsSquareBox()
    ensures ImageViewSizeAsWritten(ViewMetrics(100, 300, -2, -2, INT_MAX, INT_MAX), DisplayMetrics(1080, 1920))
         == ImageSize(100, 100)
    ensures ImageViewSize(ViewMetrics(100, 300, -2, -2, INT_MAX, INT_MAX), DisplayMetrics(1080, 1920))
         == ImageSize(100, 300)
  {
    HeightChainReadsWidth(ViewMetrics(100, 300, -2, -2, INT_MAX, INT_MAX), DisplayMetrics(1080, 1920));
  }

  /** Java's `(int)` narrowing of a long: the low 32 bits, read as two's complement. */
  function ToInt(x: int): (r: int)
    ensures INT_MIN <= r <= INT_MAX
    ensures (x - r) % 0x1_0000_0000 == 0
    ensures INT_MIN <= x <= INT_MAX ==> r == x
  {
    var low := x % 0x1_0000_0000;
    if low > INT_MAX then low - 0x1_0000_0000 else low
  }

  /** Java's int division by a positive constant: the quotient truncated toward zero. */
  function DivTrunc(a: int, d: int): (q: int)
    requires d > 0
    ensures a >= 0 ==> d * q <= a < d * q + d
    ensures a < 0 ==> d * q - d < a <= d * q
  {
    if a >= 0 then a / d else -((-a) / d)
  }

  /**
   * The memory cache's budget: an eighth of the heap limit `maxMemory` (a long),
   * after the limit has been narrowed to an int.
   */
  function CacheCapacity(maxMemory: int): (c: int)
    requires 0 <= maxMemory <= LONG_MAX
    ensures maxMemory <= INT_MAX ==> 8 * c <= maxMemory < 8 * c + 8
    ensures c <= INT_MAX / 8
  {
    DivTrunc(ToInt(maxMemory), 8)
  }

  /**
   * A heap limit of 4 GiB or of Long.MAX_VALUE ("no limit") narrows to a budget of
   * zero bytes. The LruCache constructor rejects a budget that is not positive, so
   * for such limits init throws and no loader is built.
   */
  lemma LargeHeapsGiveNoBudget()
    ensures CacheCapacity(0x1_0000_0000) == 0
    ensures CacheCapacity(LONG_MAX) == 0
  {
  }
}
