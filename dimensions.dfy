/**
 * The size arithmetic of QuadProcessorUtility: rounding up to a multiple of four,
 * the importer's aspect-preserving max-size clamp, and the source size that makes
 * the clamped size a multiple of four.
 */
module DimensionMath {
  import opened Wrappers
  import opened RealMath
  import opened IntMath
  import opened Structs

  /** AreDimensionsDivisibleByFour: both sides are multiples of four. */
  predicate AreDimensionsDivisibleByFour(width: nat, height: nat)
  {
    width % 4 == 0 && height % 4 == 0
  }

  /** CalculateDivisibleByFour: the least multiple of four that is at least the dimension. */
  function CalculateDivisibleByFour(dimension: nat): (r: nat)
    ensures r % 4 == 0
    ensures dimension <= r < dimension + 4
    ensures r == dimension <==> dimension % 4 == 0
  {
    if dimension % 4 == 0 then dimension
    else
      CeilQuarter(dimension);
      Ceil(dimension as real / 4.0) * 4
  }

  /** The ceiling in CalculateDivisibleByFour is the quotient plus one when four does not divide. */
  lemma CeilQuarter(dimension: nat)
    requires dimension % 4 != 0
    ensures Ceil(dimension as real / 4.0) == dimension / 4 + 1
  {
    var q := dimension / 4;
    assert dimension == 4 * q + dimension % 4;
    assert q as real < dimension as real / 4.0 <= (q + 1) as real;
  }

  /** Rounding up is idempotent, and a rounded pair is quad-aligned. */
  lemma DivisibleByFourIdempotent(width: nat, height: nat)
    ensures CalculateDivisibleByFour(CalculateDivisibleByFour(width)) == CalculateDivisibleByFour(width)
    ensures AreDimensionsDivisibleByFour(CalculateDivisibleByFour(width), CalculateDivisibleByFour(height))
  {
  }

  /** Below a bound that is a multiple of four, rounding up stays below the bound. */
  lemma DivisibleByFourBelow(dimension: nat, bound: nat)
    requires dimension <= bound && bound % 4 == 0
    ensures CalculateDivisibleByFour(dimension) <= bound
  {
  }

  /** IsScaledByImporter: one side exceeds the importer's maximum size. */
  predicate IsScaledByImporter(width: nat, height: nat, maxSize: nat)
  {
    width > maxSize || height > maxSize
  }

  /** IsWidthConstrained: the width is the longer side (ties count as width). */
  predicate IsWidthConstrained(width: nat, height: nat)
  {
    width >= height
  }

  /**
   * CalculateImportedDimensions: the importer's clamp. The source computes
   * maxSize / aspectRatio and maxSize * aspectRatio with aspectRatio = w / h; the
   * model writes these as maxSize * h / w and maxSize * w / h, which also give the 0
   * that float division by an infinite aspect ratio gives when h == 0.
   */
  function CalculateImportedDimensions(sourceWidth: nat, sourceHeight: nat, maxSize: nat): (r: (nat, nat))
    ensures !IsScaledByImporter(sourceWidth, sourceHeight, maxSize) ==> r == (sourceWidth, sourceHeight)
    ensures IsScaledByImporter(sourceWidth, sourceHeight, maxSize) && IsWidthConstrained(sourceWidth, sourceHeight) ==>
      && r.0 == maxSize
      && r.1 <= maxSize
      && r.1 as real - 0.5 <= (maxSize * sourceHeight) as real / sourceWidth as real <= r.1 as real + 0.5
      && ((maxSize * sourceHeight) as real / sourceWidth as real in {r.1 as real - 0.5, r.1 as real + 0.5} ==> r.1 % 2 == 0)
    ensures IsScaledByImporter(sourceWidth, sourceHeight, maxSize) && !IsWidthConstrained(sourceWidth, sourceHeight) ==>
      && r.1 == maxSize
      && r.0 <= maxSize
      && r.0 as real - 0.5 <= (maxSize * sourceWidth) as real / sourceHeight as real <= r.0 as real + 0.5
      && ((maxSize * sourceWidth) as real / sourceHeight as real in {r.0 as real - 0.5, r.0 as real + 0.5} ==> r.0 % 2 == 0)
  {
    if sourceWidth <= maxSize && sourceHeight <= maxSize then
      (sourceWidth, sourceHeight)
    else if sourceWidth >= sourceHeight then
      var h := (maxSize * sourceHeight) as real / sourceWidth as real;
      ScaledSideBounds(maxSize, sourceHeight, sourceWidth);
      (maxSize, RoundToInt(h))
    else
      var w := (maxSize * sourceWidth) as real / sourceHeight as real;
      ScaledSideBounds(maxSize, sourceWidth, sourceHeight);
      (RoundToInt(w), maxSize)
  }

  /** The shorter side scaled by maxSize / longer rounds to a value in [0, maxSize]. */
  lemma ScaledSideBounds(maxSize: nat, shorter: nat, longer: nat)
    requires shorter <= longer && 0 < longer
    ensures 0 <= RoundToInt((maxSize * shorter) as real / longer as real) <= maxSize
  {
    var x := (maxSize * shorter) as real / longer as real;
    MulMonotone(shorter, longer, maxSize);
    QuotientAtMost(maxSize * shorter, longer, maxSize);
    RoundBelow(x, maxSize);
    RoundNonNegative(x);
  }

  /** The source's HandleUnscaledDimensions: nothing to invert when the importer does not scale. */
  function HandleUnscaledDimensions(targetWidth: nat, targetHeight: nat): (nat, nat)
  {
    (targetWidth, targetHeight)
  }

  /**
   * CalculateWidthConstrainedDimensions: both sides scale by sourceWidth / maxSize,
   * the inverse of the clamp ratio, and are rounded.
   */
  function CalculateWidthConstrainedDimensions(
    sourceWidth: nat, sourceHeight: nat, maxSize: nat,
    targetImportedWidth: nat, targetImportedHeight: nat): (r: (nat, nat))
    requires sourceWidth >= 1 && sourceHeight >= 1 && maxSize >= 1
    ensures r.0 as real - 0.5 <= (targetImportedWidth * sourceWidth) as real / maxSize as real <= r.0 as real + 0.5
    ensures r.1 as real - 0.5 <= (targetImportedHeight * sourceWidth) as real / maxSize as real <= r.1 as real + 0.5
    ensures targetImportedWidth == maxSize ==> r.0 == sourceWidth
  {
    var scale := maxSize as real / sourceWidth as real;
    var scaledHeight := sourceHeight as real * scale;
    var exactW := sourceWidth as real * (targetImportedWidth as real / maxSize as real);
    var exactH := sourceHeight as real * (targetImportedHeight as real / scaledHeight);
    InverseRatio(sourceWidth, sourceHeight, maxSize, targetImportedHeight);
    assert exactW == (targetImportedWidth * sourceWidth) as real / maxSize as real;
    assert exactH == (targetImportedHeight * sourceWidth) as real / maxSize as real;
    RoundNonNegative(exactW);
    RoundNonNegative(exactH);
    RoundFullSide(sourceWidth, maxSize, targetImportedWidth);
    (RoundToInt(exactW), RoundToInt(exactH))
  }

  /**
   * CalculateHeightConstrainedDimensions: both sides scale by sourceHeight / maxSize,
   * the inverse of the clamp ratio, and are rounded.
   */
  function CalculateHeightConstrainedDimensions(
    sourceWidth: nat, sourceHeight: nat, maxSize: nat,
    targetImportedWidth: nat, targetImportedHeight: nat): (r: (nat, nat))
    requires sourceWidth >= 1 && sourceHeight >= 1 && maxSize >= 1
    ensures r.0 as real - 0.5 <= (targetImportedWidth * sourceHeight) as real / maxSize as real <= r.0 as real + 0.5
    ensures r.1 as real - 0.5 <= (targetImportedHeight * sourceHeight) as real / maxSize as real <= r.1 as real + 0.5
    ensures targetImportedHeight == maxSize ==> r.1 == sourceHeight
  {
    var scale := maxSize as real / sourceHeight as real;
    var scaledWidth := sourceWidth as real * scale;
    var exactW := sourceWidth as real * (targetImportedWidth as real / scaledWidth);
    var exactH := sourceHeight as real * (targetImportedHeight as real / maxSize as real);
    InverseRatio(sourceHeight, sourceWidth, maxSize, targetImportedWidth);
    assert exactH == (targetImportedHeight * sourceHeight) as real / maxSize as real;
    assert exactW == (targetImportedWidth * sourceHeight) as real / maxSize as real;
    RoundNonNegative(exactW);
    RoundNonNegative(exactH);
    RoundFullSide(sourceHeight, maxSize, targetImportedHeight);
    (RoundToInt(exactW), RoundToInt(exactH))
  }

  /** A target equal to maxSize maps the longer side back to its source length. */
  lemma RoundFullSide(side: nat, maxSize: nat, target: nat)
    requires maxSize >= 1
    ensures target == maxSize ==> RoundToInt(side as real * (target as real / maxSize as real)) == side
  {
    if target == maxSize {
      assert target as real / maxSize as real == 1.0;
      RoundToNearest(side as real, side);
    }
  }

  /** side * (target / (side * (maxSize / longer))) simplifies to target * longer / maxSize. */
  lemma InverseRatio(longer: nat, side: nat, maxSize: nat, target: nat)
    requires longer >= 1 && side >= 1 && maxSize >= 1
    ensures side as real * (target as real / (side as real * (maxSize as real / longer as real)))
         == (target * longer) as real / maxSize as real
  {
    var s, l, m, t := side as real, longer as real, maxSize as real, target as real;
    calc {
      s * (t / (s * (m / l)));
      t / (m / l);
      t * l / m;
    }
  }

  /** CalculateExactSourceDimensions: the source size whose clamp is the target imported size. */
  function CalculateExactSourceDimensions(
    sourceWidth: nat, sourceHeight: nat, maxSize: nat,
    targetImportedWidth: nat, targetImportedHeight: nat): (r: (nat, nat))
    requires maxSize >= 1
    requires IsScaledByImporter(sourceWidth, sourceHeight, maxSize) ==> sourceWidth >= 1 && sourceHeight >= 1
    ensures !IsScaledByImporter(sourceWidth, sourceHeight, maxSize) ==> r == (targetImportedWidth, targetImportedHeight)
    ensures IsScaledByImporter(sourceWidth, sourceHeight, maxSize) && IsWidthConstrained(sourceWidth, sourceHeight) ==>
      && (targetImportedWidth == maxSize ==> r.0 == sourceWidth)
      && r.0 as real - 0.5 <= (targetImportedWidth * sourceWidth) as real / maxSize as real <= r.0 as real + 0.5
      && r.1 as real - 0.5 <= (targetImportedHeight * sourceWidth) as real / maxSize as real <= r.1 as real + 0.5
    ensures IsScaledByImporter(sourceWidth, sourceHeight, maxSize) && !IsWidthConstrained(sourceWidth, sourceHeight) ==>
      && (targetImportedHeight == maxSize ==> r.1 == sourceHeight)
      && r.1 as real - 0.5 <= (targetImportedHeight * sourceHeight) as real / maxSize as real <= r.1 as real + 0.5
      && r.0 as real - 0.5 <= (targetImportedWidth * sourceHeight) as real / maxSize as real <= r.0 as real + 0.5
  {
    if !IsScaledByImporter(sourceWidth, sourceHeight, maxSize) then
      HandleUnscaledDimensions(targetImportedWidth, targetImportedHeight)
    else if IsWidthConstrained(sourceWidth, sourceHeight) then
      CalculateWidthConstrainedDimensions(sourceWidth, sourceHeight, maxSize, targetImportedWidth, targetImportedHeight)
    else
      CalculateHeightConstrainedDimensions(sourceWidth, sourceHeight, maxSize, targetImportedWidth, targetImportedHeight)
  }

  /**
   * GetImportedTextureInfo, given the importer's maximum size (None when the asset has
   * no TextureImporter) and the file's size as GetTextureInfo reports it (both sides
   * positive, or 0 x 0 for a file that could not be decoded).
   */
  function GetImportedTextureInfo(importerMaxSize: Option<nat>, sourceInfo: TextureInfo): (r: ImportedTextureInfo)
    requires (sourceInfo.Width == 0) == (sourceInfo.Height == 0)
    ensures importerMaxSize.None? ==> r == EmptyImportedTextureInfo
    ensures importerMaxSize.Some? ==>
      && r.SourceWidth == sourceInfo.Width && r.SourceHeight == sourceInfo.Height
      && (r.ImportedWidth, r.ImportedHeight) == CalculateImportedDimensions(sourceInfo.Width, sourceInfo.Height, importerMaxSize.value)
    ensures r.NeedsProcessing <==> !AreDimensionsDivisibleByFour(r.ImportedWidth, r.ImportedHeight)
    ensures !r.NeedsProcessing ==>
      && r.NewImportedWidth == r.ImportedWidth && r.NewImportedHeight == r.ImportedHeight
      && r.NewSourceWidth == r.SourceWidth && r.NewSourceHeight == r.SourceHeight
    ensures r.NeedsProcessing ==>
      && r.NewImportedWidth == CalculateDivisibleByFour(r.ImportedWidth)
      && r.NewImportedHeight == CalculateDivisibleByFour(r.ImportedHeight)
      && AreDimensionsDivisibleByFour(r.NewImportedWidth, r.NewImportedHeight)
      && importerMaxSize.Some? && importerMaxSize.value >= 1
      && (IsScaledByImporter(r.SourceWidth, r.SourceHeight, importerMaxSize.value) ==> r.SourceWidth >= 1 && r.SourceHeight >= 1)
      && (r.NewSourceWidth, r.NewSourceHeight) == CalculateExactSourceDimensions(
           r.SourceWidth, r.SourceHeight, importerMaxSize.value, r.NewImportedWidth, r.NewImportedHeight)
  {
    match importerMaxSize
    case None => EmptyImportedTextureInfo
    case Some(maxSize) =>
      var (importedWidth, importedHeight) := CalculateImportedDimensions(sourceInfo.Width, sourceInfo.Height, maxSize);
      var needsProcessing := !AreDimensionsDivisibleByFour(importedWidth, importedHeight);
      if !needsProcessing then
        ImportedTextureInfo(
          sourceInfo.Width, sourceInfo.Height,
          importedWidth, importedHeight,
          importedWidth, importedHeight,
          sourceInfo.Width, sourceInfo.Height,
          false)
      else
        var newImportedWidth := CalculateDivisibleByFour(importedWidth);
        var newImportedHeight := CalculateDivisibleByFour(importedHeight);
        ZeroMaxSizeClampsToZero(sourceInfo.Width, sourceInfo.Height, maxSize);
        var (newSourceWidth, newSourceHeight) := CalculateExactSourceDimensions(
          sourceInfo.Width, sourceInfo.Height, maxSize, newImportedWidth, newImportedHeight);
        ImportedTextureInfo(
          sourceInfo.Width, sourceInfo.Height,
          importedWidth, importedHeight,
          newImportedWidth, newImportedHeight,
          newSourceWidth, newSourceHeight,
          true)
  }

  /** A maximum size of 0 clamps every texture to 0 x 0, which needs no processing. */
  lemma ZeroMaxSizeClampsToZero(width: nat, height: nat, maxSize: nat)
    ensures maxSize == 0 ==> CalculateImportedDimensions(width, height, maxSize) == (0, 0)
  {
    if maxSize == 0 && IsScaledByImporter(width, height, maxSize) {
      RoundToNearest(0.0, 0);
    }
  }
}

/**
 * The importer round trip: re-clamping the planned source size reproduces the
 * planned imported size exactly, in exact arithmetic, whenever the importer's
 * maximum size is a multiple of four (as every size the Unity importer offers is).
 */
module ImportRoundTrip {
  import opened Wrappers
  import opened RealMath
  import opened IntMath
  import opened Structs
  import opened DimensionMath

  /** Scaling a rounded n = round(t * w / m) back by m / w lands strictly within one half of t. */
  lemma ScaledBackWithinHalf(m: nat, w: nat, t: nat, n: int)
    requires 1 <= m < w
    requires n as real - 0.5 <= (t * w) as real / m as real <= n as real + 0.5
    ensures t as real - 0.5 < (m * n) as real / w as real < t as real + 0.5
  {
    var M, W, T, N := m as real, w as real, t as real, n as real;
    var x := T * W / M;
    var k := M / W;
    assert (t * w) as real == T * W;
    assert (m * n) as real == M * N;
    assert M * N / W - T == k * (N - x);
    assert 0.0 < k < 1.0;
    assert -0.5 <= N - x <= 0.5;
    assert -0.5 < k * (N - x) < 0.5 by {
      assert k * (N - x) <= k * 0.5;
      assert k * (N - x) >= k * -0.5;
    }
  }

  /** A side planned from a target no larger than maxSize is at most the longer source side. */
  lemma PlannedSideBelow(longer: nat, maxSize: nat, target: nat, n: int)
    requires 1 <= maxSize && target <= maxSize
    requires n as real - 0.5 <= (target * longer) as real / maxSize as real
    ensures n <= longer
  {
    MulMonotone(target, maxSize, longer);
    QuotientAtMost(target * longer, maxSize, longer);
  }

  /** Re-clamping a width-constrained size whose height was planned from target gives (maxSize, target). */
  lemma ReclampWidthConstrained(sourceWidth: nat, newHeight: nat, maxSize: nat, target: nat)
    requires 1 <= maxSize < sourceWidth && newHeight <= sourceWidth
    requires newHeight as real - 0.5 <= (target * sourceWidth) as real / maxSize as real <= newHeight as real + 0.5
    ensures CalculateImportedDimensions(sourceWidth, newHeight, maxSize) == (maxSize, target)
  {
    var r := CalculateImportedDimensions(sourceWidth, newHeight, maxSize);
    var y := (maxSize * newHeight) as real / sourceWidth as real;
    assert r.0 == maxSize && r.1 as real - 0.5 <= y <= r.1 as real + 0.5;
    ScaledBackWithinHalf(maxSize, sourceWidth, target, newHeight);
    NearestIsUnique(r.1, target, y);
  }

  /** Re-clamping a height-constrained size whose width was planned from target gives (target, maxSize). */
  lemma ReclampHeightConstrained(newWidth: nat, sourceHeight: nat, maxSize: nat, target: nat)
    requires 1 <= maxSize < sourceHeight && newWidth < sourceHeight
    requires newWidth as real - 0.5 <= (target * sourceHeight) as real / maxSize as real <= newWidth as real + 0.5
    ensures CalculateImportedDimensions(newWidth, sourceHeight, maxSize) == (target, maxSize)
  {
    var r := CalculateImportedDimensions(newWidth, sourceHeight, maxSize);
    var y := (maxSize * newWidth) as real / sourceHeight as real;
    assert r.1 == maxSize && r.0 as real - 0.5 <= y <= r.0 as real + 0.5;
    ScaledBackWithinHalf(maxSize, sourceHeight, target, newWidth);
    NearestIsUnique(r.0, target, y);
  }

  /** A planned width equal to the height: the tie clamps to maxSize on both sides, and so must the target. */
  lemma ReclampSquare(side: nat, maxSize: nat, target: nat)
    requires 1 <= maxSize < side
    requires side as real - 0.5 <= (target * side) as real / maxSize as real <= side as real + 0.5
    ensures CalculateImportedDimensions(side, side, maxSize) == (target, maxSize)
  {
    var r := CalculateImportedDimensions(side, side, maxSize);
    var y := (maxSize * side) as real / side as real;
    assert r.0 == maxSize && r.1 as real - 0.5 <= y <= r.1 as real + 0.5;
    QuotientOfProduct(maxSize, side);
    NearestIsUnique(r.1, maxSize, y);
    ScaledBackWithinHalf(maxSize, side, target, side);
    NearestIsUnique(maxSize, target, y);
  }

  /**
   * For any decodable source size and an importer maximum that is a multiple of four, the
   * planned new source size clamps to exactly the planned imported size, which is quad-aligned.
   */
  lemma {:induction false} NewSourceReimportsToNewImported(sourceInfo: TextureInfo, maxSize: nat)
    requires (sourceInfo.Width == 0) == (sourceInfo.Height == 0)
    requires maxSize % 4 == 0
    ensures var r := GetImportedTextureInfo(Some(maxSize), sourceInfo);
      && CalculateImportedDimensions(r.NewSourceWidth, r.NewSourceHeight, maxSize) == (r.NewImportedWidth, r.NewImportedHeight)
      && AreDimensionsDivisibleByFour(r.NewImportedWidth, r.NewImportedHeight)
  {
    var sw, sh := sourceInfo.Width, sourceInfo.Height;
    var r := GetImportedTextureInfo(Some(maxSize), sourceInfo);
    if r.NeedsProcessing {
      ZeroMaxSizeClampsToZero(sw, sh, maxSize);
      if !IsScaledByImporter(sw, sh, maxSize) {
        DivisibleByFourBelow(sw, maxSize);
        DivisibleByFourBelow(sh, maxSize);
      } else if IsWidthConstrained(sw, sh) {
        DivisibleByFourBelow(r.ImportedHeight, maxSize);
        PlannedSideBelow(sw, maxSize, r.NewImportedHeight, r.NewSourceHeight);
        ReclampWidthConstrained(sw, r.NewSourceHeight, maxSize, r.NewImportedHeight);
      } else {
        DivisibleByFourBelow(r.ImportedWidth, maxSize);
        PlannedSideBelow(sh, maxSize, r.NewImportedWidth, r.NewSourceWidth);
        if r.NewSourceWidth == sh {
          ReclampSquare(sh, maxSize, r.NewImportedWidth);
        } else {
          ReclampHeightConstrained(r.NewSourceWidth, sh, maxSize, r.NewImportedWidth);
        }
      }
    }
  }
}
