/**
 * TextureProcessorChunk: the banded resize. Destination rows are produced in bands of
 * ChunkSize rows; for each band only the window of source rows it maps to is fetched,
 * and destination (x, y) takes source (floor(x * cw / nw), floor(y * ch / nh)) inside
 * that window, with the row shifted by the window's first row.
 */
module TextureProcessorChunk {
  import opened Wrappers
  import opened RealMath
  import opened IntMath
  import opened Structs
  import opened Engine
  import opened Resampler
  import opened Processing

  /** ChunkSize: destination rows per band. */
  const ChunkSize: nat := 128

  /** Integer division keeps the order of its dividends. */
  lemma DivMonotone(a: nat, b: nat, n: nat)
    requires n > 0 && a <= b
    ensures a / n <= b / n
  {
    var qb := b / n;
    assert b == qb * n + b % n;
    assert a < (qb + 1) * n;
    DivStrictBelow(a, n, qb + 1);
  }

  /** A quotient of a value below m * w is below m. */
  lemma DivStrictBelow(k: nat, w: nat, m: nat)
    requires w > 0 && k < m * w
    ensures k / w < m
  {
    assert k == (k / w) * w + k % w;
    if k / w >= m {
      MulMonotone(m, k / w, w);
    }
  }

  /** FloorToInt(i * ((float)c / n)) in exact arithmetic is the integer quotient of i * c by n. */
  lemma ScaledFloorIsQuotient(i: nat, c: nat, n: nat, scale: real)
    requires n > 0 && scale == c as real / n as real
    ensures Floor(i as real * scale) == (i * c) / n
  {
    assert i as real * scale == (i * c) as real / n as real;
    FloorOfQuotient(i * c, n);
  }

  /** A destination coordinate below n maps below c, and the mapping keeps the order. */
  lemma ScaledFloorBounds(i: nat, j: nat, c: nat, n: nat)
    requires n > 0 && c >= 1 && i <= j
    ensures (i * c) / n <= (j * c) / n
    ensures i < n ==> (i * c) / n < c
  {
    MulMonotone(i, j, c);
    DivMonotone(i * c, j * c, n);
    if i < n {
      assert i * c < c * n by {
        MulMonotone(i + 1, n, c);
        assert (i + 1) * c == i * c + c;
      }
      DivStrictBelow(i * c, n, c);
    }
  }

  /** The source pixel of destination (x, y) under the scale-factor mapping. */
  function NearestAt<P>(src: seq<P>, currentWidth: nat, currentHeight: nat, newWidth: nat, newHeight: nat,
                        x: nat, y: nat): (p: P)
    requires currentWidth >= 1 && currentHeight >= 1 && |src| == currentWidth * currentHeight
    requires x < newWidth && y < newHeight
  {
    var sourceX, sourceY := (x * currentWidth) / newWidth, (y * currentHeight) / newHeight;
    ScaledFloorBounds(x, x, currentWidth, newWidth);
    ScaledFloorBounds(y, y, currentHeight, newHeight);
    RowMajor(sourceX, sourceY, currentWidth, currentHeight);
    src[sourceY * currentWidth + sourceX]
  }

  /** The whole destination buffer of the banded resize, row-major. */
  function NearestScaled<P>(src: seq<P>, currentWidth: nat, currentHeight: nat, newWidth: nat, newHeight: nat): (r: seq<P>)
    requires currentWidth >= 1 && currentHeight >= 1 && |src| == currentWidth * currentHeight
    ensures |r| == newWidth * newHeight
  {
    seq(newWidth * newHeight, k requires 0 <= k < newWidth * newHeight =>
      FlatIndex(k, newWidth, newHeight);
      NearestAt(src, currentWidth, currentHeight, newWidth, newHeight, k % newWidth, k / newWidth))
  }

  /** Destination (x, y) of the banded resize is source (floor(x * cw / nw), floor(y * ch / nh)). */
  lemma NearestScaledPixel<P>(src: seq<P>, currentWidth: nat, currentHeight: nat, newWidth: nat, newHeight: nat,
                              x: nat, y: nat)
    requires currentWidth >= 1 && currentHeight >= 1 && |src| == currentWidth * currentHeight
    requires x < newWidth && y < newHeight
    ensures y * newWidth + x < newWidth * newHeight
    ensures NearestScaled(src, currentWidth, currentHeight, newWidth, newHeight)[y * newWidth + x]
      == NearestAt(src, currentWidth, currentHeight, newWidth, newHeight, x, y)
  {
    RowMajor(x, y, newWidth, newHeight);
    var r := NearestScaled(src, currentWidth, currentHeight, newWidth, newHeight);
    var k := y * newWidth + x;
    assert r[k] == NearestAt(src, currentWidth, currentHeight, newWidth, newHeight, k % newWidth, k / newWidth);
  }

  /** Resizing to the same size keeps every pixel. */
  lemma NearestScaledSameSize<P>(src: seq<P>, width: nat, height: nat)
    requires width >= 1 && height >= 1 && |src| == width * height
    ensures NearestScaled(src, width, height, width, height) == src
  {
    var r := NearestScaled(src, width, height, width, height);
    forall k | 0 <= k < |src|
      ensures r[k] == src[k]
    {
      FlatIndex(k, width, height);
      var x, y := k % width, k / width;
      DivUnique(x * width, width, x, 0);
      DivUnique(y * height, height, y, 0);
      assert r[k] == NearestAt(src, width, height, width, height, x, y);
      assert r[k] == src[y * width + x];
    }
  }

  /**
   * The banded mapping is not the edge-anchored one: widening a two-pixel row [a, b]
   * to four pixels gives [a, a, b, b] here, where Resample gives [a, a, a, b]
   * (EdgeAnchoredWideningPixel).
   */
  lemma BandedWideningOfPair<P>(a: P, b: P)
    ensures NearestScaled([a, b], 2, 1, 4, 1) == [a, a, b, b]
  {
    var src := [a, b];
    var r := NearestScaled(src, 2, 1, 4, 1);
    assert r[0] == NearestAt(src, 2, 1, 4, 1, 0, 0) == src[0];
    assert r[1] == NearestAt(src, 2, 1, 4, 1, 1, 0) == src[0];
    assert r[2] == NearestAt(src, 2, 1, 4, 1, 2, 0) == src[1];
    assert r[3] == NearestAt(src, 2, 1, 4, 1, 3, 0) == src[1];
  }

  /** The two mappings disagree: on [a, b] widened to four pixels, pixel 2 is b here and a under Resample. */
  lemma WideningMappingsDiffer<P>(a: P, b: P)
    requires a != b
    ensures NearestScaled([a, b], 2, 1, 4, 1) != Resample([a, b], 2, 1, 4, 1)
  {
    BandedWideningOfPair(a, b);
    EdgeAnchoredWideningPixel(a, b, 2);
  }

  /** Resample widening [a, b] to four pixels: only the last one reaches the second source pixel. */
  lemma EdgeAnchoredWideningPixel<P>(a: P, b: P, x: nat)
    requires x < 4
    ensures Resample([a, b], 2, 1, 4, 1)[x] == if x == 3 then b else a
  {
    var src := [a, b];
    var origX := EdgeAnchored(x, 2, 4);
    assert origX == (x * 1) / 3;
    assert origX == if x == 3 then 1 else 0;
    ResamplePixel(src, 2, 1, 4, 1, x, 0);
    assert GetPixelSafe(src, origX, 0, 2, 1) == src[origX];
  }

  /** Mathf.Min(ChunkSize, newHeight - chunkStart): the rows of the band that starts at chunkStart. */
  function BandHeight(newHeight: nat, chunkStart: nat, chunkSize: nat): (h: nat)
    requires chunkStart < newHeight && chunkSize >= 1
    ensures 1 <= h <= chunkSize && chunkStart + h <= newHeight
    ensures chunkStart + h == newHeight || h == chunkSize
  {
    Min(chunkSize, newHeight - chunkStart)
  }

  /**
   * The bands start at 0, chunkSize, 2 * chunkSize, ...: every destination row lies in the
   * band of index row / chunkSize, and in no other.
   */
  lemma BandsCoverRows(newHeight: nat, chunkSize: nat, row: nat, band: nat)
    requires chunkSize >= 1 && row < newHeight
    ensures var start := (row / chunkSize) * chunkSize;
      start <= row < newHeight && row < start + BandHeight(newHeight, start, chunkSize)
    ensures band * chunkSize < newHeight && band * chunkSize <= row < band * chunkSize + BandHeight(newHeight, band * chunkSize, chunkSize)
      ==> band == row / chunkSize
  {
    var q := row / chunkSize;
    assert row == q * chunkSize + row % chunkSize;
    assert (q + 1) * chunkSize == q * chunkSize + chunkSize;
    if band * chunkSize <= row < band * chunkSize + chunkSize {
      assert band * chunkSize + chunkSize == (band + 1) * chunkSize;
      DivUnique(row, chunkSize, band, row - band * chunkSize);
    }
  }

  /** The first source row of the band that starts at chunkStart: FloorToInt(chunkStart * scaleY). */
  function WindowStart(currentHeight: nat, newHeight: nat, chunkStart: nat): nat
    requires newHeight > 0
  {
    (chunkStart * currentHeight) / newHeight
  }

  /**
   * The source window of a band is inside the source and not empty, and every destination
   * row of the band maps into it, so the clamp on the offset row never acts.
   */
  lemma WindowFits(currentHeight: nat, newHeight: nat, chunkStart: nat, chunkHeight: nat, y: nat,
                   scaleY: real, start: int, sourceEndY: int, sourceHeight: int)
    requires currentHeight >= 1 && chunkHeight >= 1 && chunkStart + chunkHeight <= newHeight
    requires y < chunkHeight
    requires scaleY == currentHeight as real / newHeight as real
    requires start == WindowStart(currentHeight, newHeight, chunkStart)
    requires sourceEndY == Ceil((chunkStart + chunkHeight) as real * scaleY)
    requires sourceHeight == Min(sourceEndY - start, currentHeight - start)
    ensures 0 <= start < currentHeight
    ensures sourceHeight >= 1 && start + sourceHeight <= currentHeight
    ensures start <= ((chunkStart + y) * currentHeight) / newHeight < start + sourceHeight
  {
    ScaledFloorBounds(chunkStart, chunkStart + y, currentHeight, newHeight);
    ScaledFloorBounds(chunkStart + y, chunkStart + y, currentHeight, newHeight);
    RowBelowWindowEnd(currentHeight, newHeight, chunkStart, chunkHeight, y);
  }

  /** A destination row of the band maps strictly below CeilToInt((chunkStart + chunkHeight) * scaleY). */
  lemma RowBelowWindowEnd(currentHeight: nat, newHeight: nat, chunkStart: nat, chunkHeight: nat, y: nat)
    requires currentHeight >= 1 && y < chunkHeight && chunkStart + chunkHeight <= newHeight
    ensures ((chunkStart + y) * currentHeight) / newHeight
      < Ceil((chunkStart + chunkHeight) as real * (currentHeight as real / newHeight as real))
  {
    var i, j := chunkStart + y, chunkStart + chunkHeight;
    var row := (i * currentHeight) / newHeight;
    FloorOfQuotient(i * currentHeight, newHeight);
    assert j as real * (currentHeight as real / newHeight as real) == (j * currentHeight) as real / newHeight as real;
    MulMonotone(i + 1, j, currentHeight);
    assert (i + 1) * currentHeight == i * currentHeight + currentHeight;
    QuotientOrder(i * currentHeight, j * currentHeight, newHeight);
  }

  /** Dividing by a positive integer keeps a strict order. */
  lemma QuotientOrder(a: int, b: int, n: int)
    requires n > 0 && a < b
    ensures a as real / n as real < b as real / n as real
  {
    assert b as real / n as real - a as real / n as real == (b - a) as real / n as real;
  }

  /** The pixels GetPixels(0, start, width, height) returns: rows start .. start + height - 1, whole. */
  function Window<P>(src: seq<P>, width: nat, totalHeight: nat, start: nat, height: nat): (w: seq<P>)
    requires |src| == width * totalHeight && start + height <= totalHeight
    ensures |w| == width * height
  {
    MulMonotone(start + height, totalHeight, width);
    assert (start + height) * width == start * width + height * width;
    src[start * width .. (start + height) * width]
  }

  /** Reading (x, row - start) of a window reads (x, row) of the source. */
  lemma WindowPixel<P>(src: seq<P>, width: nat, totalHeight: nat, start: nat, height: nat, x: nat, row: nat)
    requires |src| == width * totalHeight && start + height <= totalHeight
    requires x < width && start <= row < start + height
    ensures (row - start) * width + x < width * height
    ensures row * width + x < |src|
    ensures Window(src, width, totalHeight, start, height)[(row - start) * width + x] == src[row * width + x]
  {
    WindowIndex(width, totalHeight, start, height, x, row);
    var i := (row - start) * width + x;
    var w := Window(src, width, totalHeight, start, height);
    assert w[i] == src[start * width + i];
  }

  /** Column x of source row row sits at offset (row - start) * width + x of the window. */
  lemma WindowIndex(width: nat, totalHeight: nat, start: nat, height: nat, x: nat, row: nat)
    requires start + height <= totalHeight
    requires x < width && start <= row < start + height
    ensures (row - start) * width + x < width * height
    ensures row * width + x < width * totalHeight
    ensures start * width + ((row - start) * width + x) == row * width + x
    ensures (start + height) * width == start * width + width * height
  {
    RowMajor(x, row - start, width, height);
    RowMajor(x, row, width, totalHeight);
    assert start * width + (row - start) * width == row * width;
  }

  /** Band pixels: the rows chunkStart .. chunkStart + chunkHeight - 1 of NearestScaled, as the flat chunk buffer. */
  function BandPixels<P>(src: seq<P>, currentWidth: nat, currentHeight: nat, newWidth: nat, newHeight: nat,
                         chunkStart: nat, chunkHeight: nat): (band: seq<P>)
    requires currentWidth >= 1 && currentHeight >= 1 && |src| == currentWidth * currentHeight
    requires chunkStart + chunkHeight <= newHeight
    ensures |band| == newWidth * chunkHeight
  {
    seq(newWidth * chunkHeight, j requires 0 <= j < newWidth * chunkHeight =>
      FlatIndex(j, newWidth, chunkHeight);
      NearestAt(src, currentWidth, currentHeight, newWidth, newHeight, j % newWidth, chunkStart + j / newWidth))
  }

  /** Element j of a band is element chunkStart * newWidth + j of the whole destination. */
  lemma BandIsSlice<P>(src: seq<P>, currentWidth: nat, currentHeight: nat, newWidth: nat, newHeight: nat,
                       chunkStart: nat, chunkHeight: nat, j: nat)
    requires currentWidth >= 1 && currentHeight >= 1 && |src| == currentWidth * currentHeight
    requires chunkStart + chunkHeight <= newHeight && j < newWidth * chunkHeight
    ensures chunkStart * newWidth + j < newWidth * newHeight
    ensures BandPixels(src, currentWidth, currentHeight, newWidth, newHeight, chunkStart, chunkHeight)[j]
      == NearestScaled(src, currentWidth, currentHeight, newWidth, newHeight)[chunkStart * newWidth + j]
  {
    FlatIndex(j, newWidth, chunkHeight);
    var x, y := j % newWidth, j / newWidth;
    assert chunkStart * newWidth + j == (chunkStart + y) * newWidth + x;
    NearestScaledPixel(src, currentWidth, currentHeight, newWidth, newHeight, x, chunkStart + y);
  }

  /** Band index y * newWidth + x holds destination pixel (x, chunkStart + y). */
  lemma BandPixel<P>(src: seq<P>, currentWidth: nat, currentHeight: nat, newWidth: nat, newHeight: nat,
                     chunkStart: nat, chunkHeight: nat, x: nat, y: nat)
    requires currentWidth >= 1 && currentHeight >= 1 && |src| == currentWidth * currentHeight
    requires chunkStart + chunkHeight <= newHeight && x < newWidth && y < chunkHeight
    ensures y * newWidth + x < newWidth * chunkHeight
    ensures BandPixels(src, currentWidth, currentHeight, newWidth, newHeight, chunkStart, chunkHeight)[y * newWidth + x]
      == NearestAt(src, currentWidth, currentHeight, newWidth, newHeight, x, chunkStart + y)
  {
    var j := y * newWidth + x;
    RowMajor(x, y, newWidth, chunkHeight);
    var band := BandPixels(src, currentWidth, currentHeight, newWidth, newHeight, chunkStart, chunkHeight);
    assert band[j] == NearestAt(src, currentWidth, currentHeight, newWidth, newHeight, j % newWidth, chunkStart + j / newWidth);
  }

  /** The rows before a band followed by the band are the rows up to the band's end. */
  lemma BandExtendsPrefix<P>(src: seq<P>, currentWidth: nat, currentHeight: nat, newWidth: nat, newHeight: nat,
                             chunkStart: nat, chunkHeight: nat)
    requires currentWidth >= 1 && currentHeight >= 1 && |src| == currentWidth * currentHeight
    requires chunkStart + chunkHeight <= newHeight
    ensures (chunkStart + chunkHeight) * newWidth <= newWidth * newHeight
    ensures var target := NearestScaled(src, currentWidth, currentHeight, newWidth, newHeight);
      target[..chunkStart * newWidth] + BandPixels(src, currentWidth, currentHeight, newWidth, newHeight, chunkStart, chunkHeight)
        == target[..(chunkStart + chunkHeight) * newWidth]
  {
    MulMonotone(chunkStart + chunkHeight, newHeight, newWidth);
    var target := NearestScaled(src, currentWidth, currentHeight, newWidth, newHeight);
    var band := BandPixels(src, currentWidth, currentHeight, newWidth, newHeight, chunkStart, chunkHeight);
    var offset := chunkStart * newWidth;
    assert (chunkStart + chunkHeight) * newWidth == offset + newWidth * chunkHeight;
    forall j | 0 <= j < |band|
      ensures band[j] == target[offset + j]
    {
      BandIsSlice(src, currentWidth, currentHeight, newWidth, newHeight, chunkStart, chunkHeight, j);
    }
  }

  /** Texture2D.SetPixels(0, row, width, rows, block): the block replaces the destination from offset on. */
  method SetPixels<P>(dest: array<P>, offset: nat, block: array<P>)
    requires dest != block && offset + block.Length <= dest.Length
    modifies dest
    ensures dest[..offset] == old(dest[..offset])
    ensures dest[offset..offset + block.Length] == block[..]
    ensures dest[offset + block.Length..] == old(dest[offset + block.Length..])
  {
    for j := 0 to block.Length
      invariant dest[..offset] == old(dest[..offset])
      invariant dest[offset..offset + j] == block[..j]
      invariant dest[offset + block.Length..] == old(dest[offset + block.Length..])
    {
      dest[offset + j] := block[j];
      assert dest[offset..offset + j + 1] == dest[offset..offset + j] + [block[j]];
    }
  }

  /** The x loop of one band row: chunkPixels[y * newWidth + x] for every x, read from the source window. */
  method FillBandRow<P>(chunkPixels: array<P>, sourcePixels: seq<P>, ghost src: seq<P>,
                        currentWidth: nat, currentHeight: nat, newWidth: nat, newHeight: nat,
                        scaleX: real, scaleY: real, chunkStart: nat, chunkHeight: nat,
                        sourceStartY: nat, sourceHeight: nat, y: nat)
    requires currentWidth >= 1 && currentHeight >= 1 && |src| == currentWidth * currentHeight
    requires newWidth >= 1 && chunkStart + chunkHeight <= newHeight && y < chunkHeight
    requires scaleX == currentWidth as real / newWidth as real
    requires scaleY == currentHeight as real / newHeight as real
    requires sourceStartY == WindowStart(currentHeight, newHeight, chunkStart)
    requires sourceStartY + sourceHeight <= currentHeight
    requires sourceStartY <= ((chunkStart + y) * currentHeight) / newHeight < sourceStartY + sourceHeight
    requires sourcePixels == Window(src, currentWidth, currentHeight, sourceStartY, sourceHeight)
    requires chunkPixels.Length == newWidth * chunkHeight && y * newWidth <= chunkPixels.Length
    requires chunkPixels[..y * newWidth]
      == BandPixels(src, currentWidth, currentHeight, newWidth, newHeight, chunkStart, chunkHeight)[..y * newWidth]
    modifies chunkPixels
    ensures (y + 1) * newWidth <= chunkPixels.Length
    ensures chunkPixels[..(y + 1) * newWidth]
      == BandPixels(src, currentWidth, currentHeight, newWidth, newHeight, chunkStart, chunkHeight)[..(y + 1) * newWidth]
  {
    ghost var band := BandPixels(src, currentWidth, currentHeight, newWidth, newHeight, chunkStart, chunkHeight);
    var targetY := chunkStart + y;
    var rowStart := y * newWidth;
    RowMajor(newWidth - 1, y, newWidth, chunkHeight);
    ghost var row := (targetY * currentHeight) / newHeight;
    ScaledFloorIsQuotient(targetY, currentHeight, newHeight, scaleY);
    ghost var rawY := Floor(targetY as real * scaleY);
    assert rawY == row;
    for x := 0 to newWidth
      invariant rowStart + x <= chunkPixels.Length
      invariant chunkPixels[..rowStart + x] == band[..rowStart + x]
    {
      var sourceX := Floor(x as real * scaleX);
      var sourceY := Floor(targetY as real * scaleY) - sourceStartY;
      ScaledFloorIsQuotient(x, currentWidth, newWidth, scaleX);
      ScaledFloorBounds(x, x, currentWidth, newWidth);
      sourceX := Min(sourceX, currentWidth - 1);
      sourceY := Clamp(sourceY, 0, sourceHeight - 1);
      assert sourceX == (x * currentWidth) / newWidth;
      assert sourceY == row - sourceStartY;
      WindowPixel(src, currentWidth, currentHeight, sourceStartY, sourceHeight, sourceX, row);
      var pixelColor := sourcePixels[sourceY * currentWidth + sourceX];
      BandPixel(src, currentWidth, currentHeight, newWidth, newHeight, chunkStart, chunkHeight, x, y);
      chunkPixels[rowStart + x] := pixelColor;
      assert chunkPixels[..rowStart + x + 1] == chunkPixels[..rowStart + x] + [pixelColor];
      assert band[..rowStart + x + 1] == band[..rowStart + x] + [band[rowStart + x]];
    }
    assert rowStart + newWidth == (y + 1) * newWidth;
  }

  /** The y loop of one band: every row of chunkPixels. */
  method FillBand<P>(chunkPixels: array<P>, sourcePixels: seq<P>, ghost src: seq<P>,
                     currentWidth: nat, currentHeight: nat, newWidth: nat, newHeight: nat,
                     scaleX: real, scaleY: real, chunkStart: nat, chunkHeight: nat,
                     sourceStartY: nat, sourceEndY: int, sourceHeight: nat)
    requires currentWidth >= 1 && currentHeight >= 1 && |src| == currentWidth * currentHeight
    requires newWidth >= 1 && chunkHeight >= 1 && chunkStart + chunkHeight <= newHeight
    requires scaleX == currentWidth as real / newWidth as real
    requires scaleY == currentHeight as real / newHeight as real
    requires sourceStartY == WindowStart(currentHeight, newHeight, chunkStart)
    requires sourceEndY == Ceil((chunkStart + chunkHeight) as real * scaleY)
    requires sourceHeight == Min(sourceEndY - sourceStartY, currentHeight - sourceStartY)
    requires sourceStartY + sourceHeight <= currentHeight
    requires sourcePixels == Window(src, currentWidth, currentHeight, sourceStartY, sourceHeight)
    requires chunkPixels.Length == newWidth * chunkHeight
    modifies chunkPixels
    ensures chunkPixels[..] == BandPixels(src, currentWidth, currentHeight, newWidth, newHeight, chunkStart, chunkHeight)
  {
    ghost var band := BandPixels(src, currentWidth, currentHeight, newWidth, newHeight, chunkStart, chunkHeight);
    for y := 0 to chunkHeight
      invariant y * newWidth <= chunkPixels.Length
      invariant chunkPixels[..y * newWidth] == band[..y * newWidth]
    {
      WindowFits(currentHeight, newHeight, chunkStart, chunkHeight, y, scaleY, sourceStartY, sourceEndY, sourceHeight);
      FillBandRow(chunkPixels, sourcePixels, src, currentWidth, currentHeight, newWidth, newHeight,
                  scaleX, scaleY, chunkStart, chunkHeight, sourceStartY, sourceHeight, y);
    }
    assert chunkPixels[..] == chunkPixels[..chunkHeight * newWidth];
  }

  /**
   * One pass of the chunkStart loop: compute the band and its source window, fetch the
   * window, fill the band's pixels and write them into the destination at the band's rows.
   */
  method ResampleBand<P(0)>(dest: array<P>, src: seq<P>, currentWidth: nat, currentHeight: nat,
                            newWidth: nat, newHeight: nat, scaleX: real, scaleY: real,
                            chunkStart: nat, chunkSize: nat)
    returns (chunkHeight: nat)
    requires currentWidth >= 1 && currentHeight >= 1 && |src| == currentWidth * currentHeight
    requires newWidth >= 1 && chunkStart < newHeight && chunkSize >= 1
    requires scaleX == currentWidth as real / newWidth as real
    requires scaleY == currentHeight as real / newHeight as real
    requires dest.Length == newWidth * newHeight && chunkStart * newWidth <= dest.Length
    requires dest[..chunkStart * newWidth] == NearestScaled(src, currentWidth, currentHeight, newWidth, newHeight)[..chunkStart * newWidth]
    modifies dest
    ensures chunkHeight == BandHeight(newHeight, chunkStart, chunkSize)
    ensures (chunkStart + chunkHeight) * newWidth <= dest.Length
    ensures dest[..(chunkStart + chunkHeight) * newWidth]
      == NearestScaled(src, currentWidth, currentHeight, newWidth, newHeight)[..(chunkStart + chunkHeight) * newWidth]
  {
    chunkHeight := Min(chunkSize, newHeight - chunkStart);
    var chunkPixels := new P[newWidth * chunkHeight];
    var sourceStartY := Floor(chunkStart as real * scaleY);
    var sourceEndY := Ceil((chunkStart + chunkHeight) as real * scaleY);
    ScaledFloorIsQuotient(chunkStart, currentHeight, newHeight, scaleY);
    var sourceHeight := Min(sourceEndY - sourceStartY, currentHeight - sourceStartY);
    WindowFits(currentHeight, newHeight, chunkStart, chunkHeight, 0, scaleY, sourceStartY, sourceEndY, sourceHeight);
    var sourcePixels := Window(src, currentWidth, currentHeight, sourceStartY, sourceHeight);
    FillBand(chunkPixels, sourcePixels, src, currentWidth, currentHeight, newWidth, newHeight,
             scaleX, scaleY, chunkStart, chunkHeight, sourceStartY, sourceEndY, sourceHeight);
    BandExtendsPrefix(src, currentWidth, currentHeight, newWidth, newHeight, chunkStart, chunkHeight);
    var offset := chunkStart * newWidth;
    assert offset + chunkPixels.Length == (chunkStart + chunkHeight) * newWidth;
    SetPixels(dest, offset, chunkPixels);
    assert dest[..offset + chunkPixels.Length] == dest[..offset] + dest[offset..offset + chunkPixels.Length];
  }

  /**
   * The banded loop of ModifyTextureFile: bands of chunkSize rows from the top, until every
   * destination row is written. Whatever chunkSize is, the result is the same NearestScaled buffer.
   */
  method ResampleInBands<P(0)>(src: seq<P>, currentWidth: nat, currentHeight: nat,
                               newWidth: nat, newHeight: nat, chunkSize: nat)
    returns (pixels: seq<P>)
    requires currentWidth >= 1 && currentHeight >= 1 && |src| == currentWidth * currentHeight
    requires newWidth >= 1 && newHeight >= 1 && chunkSize >= 1
    ensures pixels == NearestScaled(src, currentWidth, currentHeight, newWidth, newHeight)
  {
    ghost var target := NearestScaled(src, currentWidth, currentHeight, newWidth, newHeight);
    var destTexture := new P[newWidth * newHeight];
    var scaleX := currentWidth as real / newWidth as real;
    var scaleY := currentHeight as real / newHeight as real;
    var chunkStart := 0;
    ghost var done: nat := 0;
    while chunkStart < newHeight
      invariant done == Min(chunkStart, newHeight)
      invariant done * newWidth <= destTexture.Length
      invariant destTexture[..done * newWidth] == target[..done * newWidth]
      decreases newHeight - chunkStart
    {
      assert done == chunkStart;
      var chunkHeight := ResampleBand(destTexture, src, currentWidth, currentHeight, newWidth, newHeight,
                                      scaleX, scaleY, chunkStart, chunkSize);
      done := chunkStart + chunkHeight;
      chunkStart := chunkStart + chunkSize;
    }
    assert destTexture[..] == destTexture[..newHeight * newWidth];
    pixels := destTexture[..];
  }

  /** The loaded texture resampled in bands to the new size, as the destination texture holds it. */
  function BandedFile<P>(host: Host<P>, files: Files, assetPath: string, newWidth: nat, newHeight: nat): Texture<P>
    requires host.Valid() && LoadTextureFromFile(host, files, assetPath).Loaded?
  {
    var texture := LoadTextureFromFile(host, files, assetPath).texture;
    Texture(newWidth, newHeight, NearestScaled(texture.pixels, texture.width, texture.height, newWidth, newHeight))
  }

  /**
   * What this file's ModifyTextureFile does to one file. Its EncodeTexture is the utility's
   * EncoderFor (PNG and JPG only), and every exception, from reading, from the destination
   * texture's constructor or from writing, is caught and logged. Each status is tied to the
   * inputs that produce it.
   */
  function ChunkModification<P>(host: Host<P>, files: Files, assetPath: string,
                                currentWidth: nat, currentHeight: nat, newWidth: nat, newHeight: nat): (o: Outcome)
    requires host.Valid()
    ensures o.status == SameSizeRequested <==> newWidth == currentWidth && newHeight == currentHeight
    ensures o.status == ReadFailed <==>
      (currentWidth, currentHeight) != (newWidth, newHeight) && assetPath !in files
    ensures o.status == NotDecoded <==>
      (currentWidth, currentHeight) != (newWidth, newHeight) && LoadTextureFromFile(host, files, assetPath).NotAnImage?
    ensures o.status != AlreadyAtTarget
    ensures o.status == ReinitializeFailed <==>
      && (currentWidth, currentHeight) != (newWidth, newHeight) && LoadTextureFromFile(host, files, assetPath).Loaded?
      && !host.canResize(newWidth, newHeight)
    ensures o.status == EncodeUnsupported <==>
      && (currentWidth, currentHeight) != (newWidth, newHeight) && LoadTextureFromFile(host, files, assetPath).Loaded?
      && host.canResize(newWidth, newHeight) && EncoderFor(LoweredExtension(assetPath)).None?
    ensures o.status == EncodeFailed <==>
      && (currentWidth, currentHeight) != (newWidth, newHeight) && LoadTextureFromFile(host, files, assetPath).Loaded?
      && host.canResize(newWidth, newHeight) && EncoderFor(LoweredExtension(assetPath)).Some?
      && !EncodesWith(host, EncoderFor(LoweredExtension(assetPath)), BandedFile(host, files, assetPath, newWidth, newHeight))
    ensures o.status == WriteFailed <==>
      && (currentWidth, currentHeight) != (newWidth, newHeight) && LoadTextureFromFile(host, files, assetPath).Loaded?
      && host.canResize(newWidth, newHeight)
      && EncodesWith(host, EncoderFor(LoweredExtension(assetPath)), BandedFile(host, files, assetPath, newWidth, newHeight))
      && !host.canWrite(assetPath)
    ensures o.status == Written <==>
      && (currentWidth, currentHeight) != (newWidth, newHeight) && LoadTextureFromFile(host, files, assetPath).Loaded?
      && host.canResize(newWidth, newHeight)
      && EncodesWith(host, EncoderFor(LoweredExtension(assetPath)), BandedFile(host, files, assetPath, newWidth, newHeight))
      && host.canWrite(assetPath)
    ensures o.status != Written ==> o.files == files
    ensures o.status == Written ==>
      && newWidth >= 1 && newHeight >= 1
      && o.files.Keys == files.Keys
      && (forall p :: p in files && p != assetPath ==> o.files[p] == files[p])
  {
    if newWidth == currentWidth && newHeight == currentHeight then Outcome(SameSizeRequested, files)
    else match LoadTextureFromFile(host, files, assetPath)
      case ReadThrew => Outcome(ReadFailed, files)
      case NotAnImage => Outcome(NotDecoded, files)
      case Loaded(texture) =>
        if !host.canResize(newWidth, newHeight) then Outcome(ReinitializeFailed, files)
        else
          var destTexture := BandedFile(host, files, assetPath, newWidth, newHeight);
          match EncoderFor(LoweredExtension(assetPath))
          case None => Outcome(EncodeUnsupported, files)
          case Some(format) =>
            match host.encode(format, destTexture)
            case None => Outcome(EncodeFailed, files)
            case Some(newBytes) =>
              if !host.canWrite(assetPath) then Outcome(WriteFailed, files)
              else Outcome(Written, files[assetPath := newBytes])
  }

  /**
   * A written file holds the banded resample of the texture that was loaded, at the new size;
   * unlike the other entry points, a texture that already has that size is still resampled and written.
   */
  lemma ChunkModificationWrites<P>(host: Host<P>, files: Files, assetPath: string,
                                   currentWidth: nat, currentHeight: nat, newWidth: nat, newHeight: nat)
    requires host.Valid()
    ensures var o := ChunkModification(host, files, assetPath, currentWidth, currentHeight, newWidth, newHeight);
      o.status == Written ==>
        var texture := LoadTextureFromFile(host, files, assetPath).texture;
        && LoadTextureFromFile(host, files, assetPath).Loaded?
        && host.encode(EncoderFor(LoweredExtension(assetPath)).value,
             Texture(newWidth, newHeight, NearestScaled(texture.pixels, texture.width, texture.height, newWidth, newHeight)))
           == Some(o.files[assetPath])
  {
  }

  /**
   * When the loaded texture already has the new size (the sizes passed in were stale), the
   * banded resample keeps every pixel, so the file is re-encoded from its own pixels.
   */
  lemma ChunkSameLoadedSizeKeepsPixels<P>(host: Host<P>, files: Files, assetPath: string,
                                          currentWidth: nat, currentHeight: nat, newWidth: nat, newHeight: nat)
    requires host.Valid()
    requires LoadTextureFromFile(host, files, assetPath).Loaded?
    requires LoadTextureFromFile(host, files, assetPath).texture.width == newWidth
    requires LoadTextureFromFile(host, files, assetPath).texture.height == newHeight
    ensures var o := ChunkModification(host, files, assetPath, currentWidth, currentHeight, newWidth, newHeight);
      o.status == Written ==>
        host.encode(EncoderFor(LoweredExtension(assetPath)).value,
          LoadTextureFromFile(host, files, assetPath).texture) == Some(o.files[assetPath])
  {
    var texture := LoadTextureFromFile(host, files, assetPath).texture;
    NearestScaledSameSize(texture.pixels, newWidth, newHeight);
  }

  /** ModifyTextureFile, proved to do what ChunkModification describes, whatever the band size. */
  method ModifyTextureFile<P(0)>(host: Host<P>, files: Files, assetPath: string,
                                 currentWidth: nat, currentHeight: nat, newWidth: nat, newHeight: nat)
    returns (outcome: Outcome)
    requires host.Valid()
    ensures outcome == ChunkModification(host, files, assetPath, currentWidth, currentHeight, newWidth, newHeight)
  {
    if newWidth == currentWidth && newHeight == currentHeight {
      return Outcome(SameSizeRequested, files);
    }
    var sourceTexture := LoadTextureFromFile(host, files, assetPath);
    if sourceTexture.ReadThrew? {
      return Outcome(ReadFailed, files);
    }
    if sourceTexture.NotAnImage? {
      return Outcome(NotDecoded, files);
    }
    var texture := sourceTexture.texture;
    var loadedWidth, loadedHeight := texture.width, texture.height;
    if !host.canResize(newWidth, newHeight) {
      return Outcome(ReinitializeFailed, files);
    }
    var pixels := ResampleInBands(texture.pixels, loadedWidth, loadedHeight, newWidth, newHeight, ChunkSize);
    var destTexture := Texture(newWidth, newHeight, pixels);
    var format := EncoderFor(LoweredExtension(assetPath));
    if format.None? {
      return Outcome(EncodeUnsupported, files);
    }
    var newBytes := host.encode(format.value, destTexture);
    if newBytes.None? {
      return Outcome(EncodeFailed, files);
    }
    if !host.canWrite(assetPath) {
      return Outcome(WriteFailed, files);
    }
    outcome := Outcome(Written, files[assetPath := newBytes.value]);
  }
}
