/**
 * Edge-anchored nearest-neighbour resampling, as QuadProcessorUtility.ResamplePixels
 * and the loop inside QuadProcessor.ModifyTextureFile compute it: destination pixel
 * (x, y) takes the source pixel at FloorToInt(x / (newWidth - 1) * (currentWidth - 1)),
 * and likewise for y, read through GetPixelSafe. Pixel buffers are row-major.
 */
module Resampler {
  import opened RealMath
  import opened IntMath

  /** Mathf.Clamp on integers (a value below min gives min, otherwise one above max gives max). */
  function Clamp(value: int, min: int, max: int): (r: int)
    ensures min <= max ==> min <= r <= max
    ensures min <= value <= max ==> r == value
    ensures value < min ==> r == min
    ensures min <= max < value ==> r == max
  {
    if value < min then min else if value > max then max else value
  }

  /** The flat index GetPixelSafe reads. */
  function SafeIndex(x: int, y: int, width: nat, height: nat): (i: nat)
    requires width >= 1 && height >= 1
    ensures i < width * height
    ensures 0 <= x < width && 0 <= y < height ==> i == y * width + x
  {
    RowMajor(Clamp(x, 0, width - 1), Clamp(y, 0, height - 1), width, height);
    Clamp(y, 0, height - 1) * width + Clamp(x, 0, width - 1)
  }

  /**
   * GetPixelSafe: the pixel at (x, y) with both coordinates clamped into the image.
   * The read is always in bounds, and coordinates already inside the image are left as they are.
   */
  function GetPixelSafe<P>(pixels: seq<P>, x: int, y: int, width: nat, height: nat): (p: P)
    requires width >= 1 && height >= 1 && |pixels| == width * height
    ensures 0 <= x < width && 0 <= y < height ==> y * width + x < |pixels| && p == pixels[y * width + x]
  {
    pixels[SafeIndex(x, y, width, height)]
  }

  /**
   * The source coordinate for destination coordinate i, which the source computes as
   * FloorToInt(i / (float)(newSize - 1) * (currentSize - 1)); EdgeAnchoredIsFloatMapping
   * shows the two agree in exact arithmetic. For newSize == 1 the source divides 0 by 0;
   * the NaN this yields converts to an integer that GetPixelSafe clamps to 0, and the model
   * writes that 0 directly.
   */
  function EdgeAnchored(i: nat, currentSize: nat, newSize: nat): (c: int)
    ensures newSize >= 2 && currentSize >= 1 && i < newSize ==> 0 <= c < currentSize
  {
    if newSize <= 1 then 0
    else
      EdgeAnchoredInside(i, currentSize, newSize);
      (i * (currentSize as int - 1)) / (newSize - 1)
  }

  /** The quotient of EdgeAnchored stays inside the source. */
  lemma EdgeAnchoredInside(i: nat, currentSize: nat, newSize: nat)
    requires newSize >= 2
    ensures currentSize >= 1 && i < newSize ==> 0 <= (i * (currentSize - 1)) / (newSize - 1) < currentSize
  {
    if currentSize >= 1 && i < newSize {
      MulMonotone(i, newSize - 1, currentSize - 1);
      DivBelow(i * (currentSize - 1), newSize - 1, currentSize - 1);
    }
  }

  /** The float expression of the source, taken on exact rationals, is the integer quotient of EdgeAnchored. */
  lemma EdgeAnchoredIsFloatMapping(i: nat, currentSize: nat, newSize: nat)
    requires newSize >= 2 && currentSize >= 1
    ensures Floor((i as real / (newSize - 1) as real) * (currentSize as int - 1) as real) == EdgeAnchored(i, currentSize, newSize)
  {
    var c1, b := currentSize - 1, newSize - 1;
    var a := i * c1;
    assert a as real == i as real * c1 as real;
    assert (i as real / b as real) * c1 as real == a as real / b as real;
    FloorOfQuotient(a, b);
  }

  /** The first and the last destination coordinates map to the first and the last source coordinates. */
  lemma EdgeAnchoredCorners(currentSize: nat, newSize: nat)
    requires currentSize >= 1 && newSize >= 2
    ensures EdgeAnchored(0, currentSize, newSize) == 0
    ensures EdgeAnchored(newSize - 1, currentSize, newSize) == currentSize - 1
  {
    DivUnique(0, newSize - 1, 0, 0);
    DivUnique((newSize - 1) * (currentSize - 1), newSize - 1, currentSize - 1, 0);
  }

  /** Destination pixel (x, y) of a resample. */
  function ResampleAt<P>(src: seq<P>, currentWidth: nat, currentHeight: nat, newWidth: nat, newHeight: nat,
                         x: nat, y: nat): P
    requires currentWidth >= 1 && currentHeight >= 1 && |src| == currentWidth * currentHeight
  {
    GetPixelSafe(src, EdgeAnchored(x, currentWidth, newWidth), EdgeAnchored(y, currentHeight, newHeight),
                 currentWidth, currentHeight)
  }

  /** The whole resampled buffer, newWidth * newHeight pixels, row by row. */
  function Resample<P>(src: seq<P>, currentWidth: nat, currentHeight: nat, newWidth: nat, newHeight: nat): (r: seq<P>)
    requires currentWidth >= 1 && currentHeight >= 1 && |src| == currentWidth * currentHeight
    ensures |r| == newWidth * newHeight
  {
    seq(newWidth * newHeight, k requires 0 <= k < newWidth * newHeight =>
      ResampleAt(src, currentWidth, currentHeight, newWidth, newHeight, k % newWidth, k / newWidth))
  }

  /** Destination index y * newWidth + x holds destination pixel (x, y). */
  lemma ResamplePixel<P>(src: seq<P>, currentWidth: nat, currentHeight: nat, newWidth: nat, newHeight: nat,
                         x: nat, y: nat)
    requires currentWidth >= 1 && currentHeight >= 1 && |src| == currentWidth * currentHeight
    requires x < newWidth && y < newHeight
    ensures y * newWidth + x < newWidth * newHeight
    ensures Resample(src, currentWidth, currentHeight, newWidth, newHeight)[y * newWidth + x]
         == ResampleAt(src, currentWidth, currentHeight, newWidth, newHeight, x, y)
  {
    var k := y * newWidth + x;
    RowMajor(x, y, newWidth, newHeight);
    var r := Resample(src, currentWidth, currentHeight, newWidth, newHeight);
    assert r[k] == ResampleAt(src, currentWidth, currentHeight, newWidth, newHeight, k % newWidth, k / newWidth);
  }

  /**
   * When both new sides are at least 2 the clamp never acts: pixel (x, y) is the source pixel
   * at (x * (cw - 1) / (nw - 1), y * (ch - 1) / (nh - 1)), rounded down, which lies inside the source.
   */
  lemma ResampleUnclamped<P>(src: seq<P>, currentWidth: nat, currentHeight: nat, newWidth: nat, newHeight: nat,
                             x: nat, y: nat)
    requires currentWidth >= 1 && currentHeight >= 1 && |src| == currentWidth * currentHeight
    requires 2 <= newWidth && 2 <= newHeight && x < newWidth && y < newHeight
    ensures var sx, sy := (x * (currentWidth - 1)) / (newWidth - 1), (y * (currentHeight - 1)) / (newHeight - 1);
      && 0 <= sx < currentWidth && 0 <= sy < currentHeight
      && sy * currentWidth + sx < |src|
      && ResampleAt(src, currentWidth, currentHeight, newWidth, newHeight, x, y) == src[sy * currentWidth + sx]
  {
    var sx, sy := EdgeAnchored(x, currentWidth, newWidth), EdgeAnchored(y, currentHeight, newHeight);
    assert sx == (x * (currentWidth - 1)) / (newWidth - 1) && sy == (y * (currentHeight - 1)) / (newHeight - 1);
    RowMajor(sx, sy, currentWidth, currentHeight);
  }

  /** The corners of the resampled image are the corners of the source. */
  lemma ResampleCorners<P>(src: seq<P>, currentWidth: nat, currentHeight: nat, newWidth: nat, newHeight: nat)
    requires currentWidth >= 1 && currentHeight >= 1 && |src| == currentWidth * currentHeight
    requires 2 <= newWidth && 2 <= newHeight
    ensures Resample(src, currentWidth, currentHeight, newWidth, newHeight)[0] == src[0]
    ensures (newHeight - 1) * newWidth + newWidth - 1 < newWidth * newHeight
    ensures (currentHeight - 1) * currentWidth + currentWidth - 1 < |src|
    ensures Resample(src, currentWidth, currentHeight, newWidth, newHeight)[(newHeight - 1) * newWidth + newWidth - 1]
         == src[(currentHeight - 1) * currentWidth + currentWidth - 1]
  {
    EdgeAnchoredCorners(currentWidth, newWidth);
    EdgeAnchoredCorners(currentHeight, newHeight);
    ResamplePixel(src, currentWidth, currentHeight, newWidth, newHeight, 0, 0);
    ResamplePixel(src, currentWidth, currentHeight, newWidth, newHeight, newWidth - 1, newHeight - 1);
    RowMajor(currentWidth - 1, currentHeight - 1, currentWidth, currentHeight);
  }

  /** Resampling to the size the image already has maps every coordinate to itself. */
  lemma EdgeAnchoredSameSize(i: nat, size: nat)
    requires i < size
    ensures EdgeAnchored(i, size, size) == i
  {
    if size >= 2 {
      DivUnique(i * (size - 1), size - 1, i, 0);
    }
  }

  /** Resampling to the size the image already has gives back the image. */
  lemma ResampleSameSize<P>(src: seq<P>, width: nat, height: nat)
    requires width >= 1 && height >= 1 && |src| == width * height
    ensures Resample(src, width, height, width, height) == src
  {
    var r := Resample(src, width, height, width, height);
    forall k | 0 <= k < |src|
      ensures r[k] == src[k]
    {
      FlatIndex(k, width, height);
      EdgeAnchoredSameSize(k % width, width);
      EdgeAnchoredSameSize(k / width, height);
    }
  }

  /**
   * ResamplePixels: fills a fresh buffer of newWidth * newHeight pixels in a y/x loop,
   * writing index y * newWidth + x with the mapped source pixel.
   */
  method ResamplePixels<P(0)>(originalPixels: seq<P>, currentWidth: nat, currentHeight: nat,
                              newWidth: nat, newHeight: nat)
    returns (newPixels: seq<P>)
    requires currentWidth >= 1 && currentHeight >= 1 && |originalPixels| == currentWidth * currentHeight
    ensures newPixels == Resample(originalPixels, currentWidth, currentHeight, newWidth, newHeight)
  {
    ghost var target := Resample(originalPixels, currentWidth, currentHeight, newWidth, newHeight);
    var pixels := new P[newWidth * newHeight];
    for y := 0 to newHeight
      invariant y * newWidth <= pixels.Length
      invariant pixels[..y * newWidth] == target[..y * newWidth]
    {
      ResampleRow(pixels, originalPixels, currentWidth, currentHeight, newWidth, newHeight, y);
    }
    assert pixels[..] == pixels[..newHeight * newWidth];
    newPixels := pixels[..];
  }

  /** The inner loop of ResamplePixels: row y of the destination, left to right. */
  method ResampleRow<P>(pixels: array<P>, originalPixels: seq<P>, currentWidth: nat, currentHeight: nat,
                        newWidth: nat, newHeight: nat, y: nat)
    requires currentWidth >= 1 && currentHeight >= 1 && |originalPixels| == currentWidth * currentHeight
    requires pixels.Length == newWidth * newHeight && y < newHeight
    requires y * newWidth <= pixels.Length
    requires pixels[..y * newWidth] == Resample(originalPixels, currentWidth, currentHeight, newWidth, newHeight)[..y * newWidth]
    modifies pixels
    ensures (y + 1) * newWidth <= pixels.Length
    ensures pixels[..(y + 1) * newWidth] == Resample(originalPixels, currentWidth, currentHeight, newWidth, newHeight)[..(y + 1) * newWidth]
  {
    ghost var target := Resample(originalPixels, currentWidth, currentHeight, newWidth, newHeight);
    var row := y * newWidth;
    for x := 0 to newWidth
      invariant row + x <= pixels.Length
      invariant pixels[..row + x] == target[..row + x]
    {
      var origX := EdgeAnchored(x, currentWidth, newWidth);
      var origY := EdgeAnchored(y, currentHeight, newHeight);
      var pixel := GetPixelSafe(originalPixels, origX, origY, currentWidth, currentHeight);
      ResamplePixel(originalPixels, currentWidth, currentHeight, newWidth, newHeight, x, y);
      pixels[row + x] := pixel;
      assert pixels[..row + x + 1] == pixels[..row + x] + [pixel];
      assert target[..row + x + 1] == target[..row + x] + [target[row + x]];
    }
    assert row + newWidth == (y + 1) * newWidth;
  }
}
