# Quad Sprite Processor — a verified model of the resize engine

Quad Sprite Processor is a Unity editor plugin. It finds textures whose width or height is not a
multiple of four and resizes the image files so that both sides become multiples of four. Block
compression formats need sides that are multiples of four. This project models the plugin's core
in Dafny and proves what each part promises:

- **Dimension arithmetic** (`dimensions.dfy`, modules `DimensionMath` and `ImportRoundTrip`):
  - rounding a side up to a multiple of four;
  - the importer's aspect-preserving max-size clamp;
  - the inverse that picks the source size whose clamp is quad-aligned;
  - the per-asset import plan.
- **Edge-anchored nearest-neighbour resampling** (`resampler.dfy`, module `Resampler`).
  `QuadProcessorUtility.ResamplePixels` does it with `GetPixelSafe` clamped reads. The loop inside
  `QuadProcessor.ModifyTextureFile` computes the same thing.
- **Resizing one file** in place, with every early return and failure path:
  - `processing.dfy` covers `ModifyTextureFileDirectly` and its legacy wrapper;
  - `quad_processor.dfy` covers `QuadProcessor.ModifyTextureFile`;
  - `chunk.dfy` covers the banded `TextureProcessorChunk.ModifyTextureFile`. That file walks the
    destination in bands of 128 rows and fetches only the matching window of source rows.
- **Batch pipeline**:
  - scanning a folder (`scanning.dfy`);
  - processing a list with Total / Succeeded / Failed counters (`processing.dfy`);
  - the "Resize to be Quad-Divisible" context-menu item (`context_menu.dfy`). It splits the
    selection into already-aligned and to-be-resized textures, and keeps its own counters.
- **Editor window** (`editor_window.dfy`):
  - the window's list and options, as a class;
  - project-path conversion, select-all / deselect-all, the selected-row filter, scanning, and
    processing the selection followed by a rescan.

The world outside the plugin is an `Engine.Host` value, a record of functions:

- image decoding (`LoadImage`);
- whether the engine accepts a texture size (`Reinitialize`, the `Texture2D` constructor). `Host.Valid`
  requires every accepted size to have both sides at least 1;
- the encoders, which may return null;
- whether a write succeeds;
- the importer's maximum size;
- whether analysing a file throws;
- `Directory.Exists` and `Directory.GetFiles`.

The files on disk are a `map<string, seq<bv8>>`. `File.ReadAllBytes` throws for a path the map
lacks. A state-changing operation returns the new map. Pixels are an arbitrary type parameter.
Float arithmetic is taken on exact rationals (`real`):

- `Mathf.FloorToInt` is `Floor` and `Mathf.CeilToInt` is `Ceil`;
- `Mathf.RoundToInt` rounds to the nearest integer, with halves going to the even integer, as Unity
  documents it.

How one call of each entry point ends is an `Engine.Status` value. There is one status per early
return, per caught exception and per completed write. `Processing.Raises` says which statuses
reach the caller as an exception.

Results that are worth stating outright:

- **Exact import round trip.** When the importer's maximum size is a multiple of four,
  re-clamping the planned new source size gives exactly the planned quad-aligned imported size,
  in exact arithmetic (`ImportRoundTrip.NewSourceReimportsToNewImported`). Every size the Unity
  importer offers is such a multiple.
- **The banded resampler ignores the band size.** Its output is `NearestScaled` whatever the band
  size is (`TextureProcessorChunk.ResampleInBands`).
- **The two resamplers differ.** The banded resampler maps destination `x` to
  `floor(x * cw / nw)`, where the edge-anchored one maps it to `floor(x * (cw - 1) / (nw - 1))`.
  They are different resamplers:
  - widening `[a, b]` to four pixels gives `[a, a, b, b]` under one and `[a, a, a, b]` under the
    other (`BandedWideningOfPair`, `EdgeAnchoredWideningPixel`);
  - `WideningMappingsDiffer` proves that the two results are not equal.
- **The banded entry point always resamples.** It has no "already at target size" return: a
  texture whose loaded size already equals the requested size is resampled and written again.
  Its pixels come back unchanged (`ChunkSameLoadedSizeKeepsPixels`).
- **An unreadable texture counts as aligned.** In the context menu, a valid texture whose file
  cannot be read or decoded has size 0 x 0, so it is reported as already divisible by four
  (`UnreadableCountsAsAligned`).
- **Quiet failures count as successes.** In `ProcessTextures`, a file that does not decode, a size
  the engine refuses, an extension with no encoder and an encoder that returns null all return
  without an exception. They are therefore counted as successes (`Processing.QuietFailures`). Only a file that
  cannot be read (one absent from the file map) or a failed write is counted as a failure (`Processing.RaisingFailures`).

## Model

| member | source | states |
|---|---|---|
| RealMath.RoundToInt | src/QuadProcessorUtility.cs:169-172 | the result is within one half of the value, and an exact half goes to the even integer |
| RealMath.Floor | src/QuadProcessorUtility.cs:526-527 | FloorToInt gives the largest integer not above the value |
| RealMath.Ceil | Tests/TextureProcessorChunk.cs:51 | CeilToInt gives the smallest integer not below the value |
| RealMath.Min | Tests/TextureProcessorChunk.cs:46 | Mathf.Min is a lower bound of both arguments and equals one of them |
| PathText.ToLower | src/QuadProcessorUtility.cs:301 | ToLower keeps the length and lower-cases each character |
| PathText.GetExtension | src/QuadProcessorUtility.cs:539 | a non-empty extension is the '.'-led suffix of at least two characters with no further '.' or separator after it, so it starts at the last '.' of the file name; an empty extension means the path ends in '.' or every '.' has a separator after it |
| PathText.GetFileName | src/QuadProcessorUtility.cs:275 | the file name is the suffix of the path after its last separator: it holds no separator, and the character before it, if any, is one |
| Structs.ProgressReports | src/QuadProcessorUtility.cs:270-276 | one progress call per listed file, in order, with the file name, its 1-based position and the count |
| Engine.LoadTextureFromFile | src/QuadProcessorUtility.cs:478-490 | the read throws exactly for a missing file; the load succeeds exactly when the bytes decode, and then gives a well-formed texture |
| DimensionMath.CalculateDivisibleByFour | src/QuadProcessorUtility.cs:40-48 | the result is a multiple of four, at least the input and below input + 4, and equals the input exactly when four divides it |
| DimensionMath.DivisibleByFourIdempotent | src/QuadProcessorUtility.cs:35-48 | rounding up twice equals rounding up once, and a rounded pair passes AreDimensionsDivisibleByFour |
| DimensionMath.DivisibleByFourBelow | src/QuadProcessorUtility.cs:40-48 | below a bound that is a multiple of four, rounding up stays within the bound |
| DimensionMath.CalculateImportedDimensions | src/QuadProcessorUtility.cs:158-173 | unscaled sizes are returned unchanged; otherwise the longer side (width on a tie) becomes maxSize and the other is maxSize * short / long rounded, at most maxSize, with an exact half going to the even integer |
| DimensionMath.ZeroMaxSizeClampsToZero | src/QuadProcessorUtility.cs:158-173 | a maximum size of 0 clamps every size to 0 x 0 |
| DimensionMath.CalculateWidthConstrainedDimensions | src/QuadProcessorUtility.cs:211-223 | both sides are the targets scaled by sourceWidth / maxSize and rounded; a target width of maxSize gives back sourceWidth |
| DimensionMath.CalculateHeightConstrainedDimensions | src/QuadProcessorUtility.cs:225-237 | both sides are the targets scaled by sourceHeight / maxSize and rounded; a target height of maxSize gives back sourceHeight |
| DimensionMath.CalculateExactSourceDimensions | src/QuadProcessorUtility.cs:175-193 | an unscaled source returns the targets unchanged; in each scaled branch both sides are the targets scaled by the constrained source side / maxSize and rounded, and a target of maxSize on the constrained side gives that source side back |
| DimensionMath.GetImportedTextureInfo | src/QuadProcessorUtility.cs:100-156 | no importer gives the empty info; otherwise the imported size is the clamp; NeedsProcessing holds exactly when the clamp is not quad-aligned; without work every New field is the current value; with work NewImported is the rounded-up clamp and NewSource is CalculateExactSourceDimensions of it under the (positive) importer maximum |
| ImportRoundTrip.ReclampWidthConstrained | src/QuadProcessorUtility.cs:211-223 | re-clamping a width-constrained planned source size gives (maxSize, target) |
| ImportRoundTrip.ReclampHeightConstrained | src/QuadProcessorUtility.cs:225-237 | re-clamping a height-constrained planned source size gives (target, maxSize) |
| ImportRoundTrip.NewSourceReimportsToNewImported | src/QuadProcessorUtility.cs:134-142 | with maxSize a multiple of four, clamping the planned new source size gives exactly the planned imported size, which is quad-aligned |
| Resampler.Clamp | src/QuadProcessorUtility.cs:91-92 | Mathf.Clamp keeps values in range, maps values below to min and values above to max |
| Resampler.SafeIndex | src/QuadProcessorUtility.cs:89-94 | the clamped flat index is always inside the buffer, and equals y * width + x for in-range coordinates |
| Resampler.GetPixelSafe | src/QuadProcessorUtility.cs:89-94 | in-range coordinates read exactly pixel y * width + x |
| Resampler.EdgeAnchored | src/QuadProcessorUtility.cs:524-527 | for newSize >= 2 a destination coordinate maps inside the source |
| Resampler.EdgeAnchoredIsFloatMapping | src/QuadProcessorUtility.cs:524-527 | FloorToInt(x / (newSize - 1) * (currentSize - 1)) in exact arithmetic is the mapping's integer quotient |
| Resampler.EdgeAnchoredCorners | src/QuadProcessor.cs:46-50 | the first and last destination coordinates map to the first and last source coordinates |
| Resampler.Resample | src/QuadProcessorUtility.cs:519 | the resampled buffer has exactly newWidth * newHeight pixels |
| Resampler.ResamplePixel | src/QuadProcessorUtility.cs:528-529 | index y * newWidth + x holds destination pixel (x, y), the clamped read at the mapped coordinates |
| Resampler.ResampleUnclamped | src/QuadProcessor.cs:49-54 | for new sides >= 2 the mapped coordinates already lie in the source, and pixel (x, y) is the source pixel at them |
| Resampler.ResampleCorners | src/QuadProcessor.cs:46-54 | the first and last pixels of the resample are the first and last pixels of the source |
| Resampler.EdgeAnchoredSameSize | src/QuadProcessor.cs:46-50 | at the same size every coordinate maps to itself |
| Resampler.ResampleSameSize | src/QuadProcessor.cs:24-54 | resampling to the loaded size gives back the source pixels |
| Resampler.ResamplePixels | src/QuadProcessorUtility.cs:513-535 | the y/x loop into a fresh array yields exactly Resample |
| Resampler.ResampleRow | src/QuadProcessorUtility.cs:522-530 | one pass of the x loop extends the correct prefix of the buffer by row y |
| Processing.EncoderFor | src/QuadProcessorUtility.cs:552-565 | there is an encoder exactly for .png, .jpg and .jpeg: PNG for .png, JPG for the other two |
| Processing.Resized | src/QuadProcessorUtility.cs:492-511 | the reinitialised texture has the new size, and is well formed when both sides are positive |
| Processing.ResizeTexture | src/QuadProcessorUtility.cs:492-511 | fails exactly when Reinitialize refuses the size; otherwise gives the resampled texture |
| Processing.SaveTextureToFile | src/QuadProcessorUtility.cs:537-550 | no encoder gives EncodeUnsupported, an encoder returning null gives EncodeFailed, a failing write gives WriteFailed, and otherwise exactly the asset's file is replaced by the encoded bytes; files change only when written |
| Processing.DirectModification | src/QuadProcessorUtility.cs:419-467 | each status holds exactly for its inputs: ReadFailed for a missing file, NotDecoded for bytes LoadImage refuses, AlreadyAtTarget for a loaded texture of the target size, ReinitializeFailed when the engine refuses the size, EncodeUnsupported without an encoder, EncodeFailed when the encoder returns null, WriteFailed when the write throws, and Written when every step succeeds; only Written changes files |
| Processing.DirectModificationFrame | src/QuadProcessorUtility.cs:419-467 | one modification keeps the set of files and every other file |
| Processing.DirectModificationWrites | src/QuadProcessorUtility.cs:436-451 | a written file held a texture of another size and now holds the encoded resample of it at the target size |
| Processing.QuietFailures | src/QuadProcessorUtility.cs:425-459 | a file that does not decode, is already at the target size, gets a refused size, has no encoder or gets a null encoding does not raise, changes no file, and counts as one success |
| Processing.RaisingFailures | src/QuadProcessorUtility.cs:425-459 | the call raises exactly for a missing file or a write that throws after a successful resize and encoding, and such an item counts as one failure |
| Processing.ModifyTextureFileDirectly | src/QuadProcessorUtility.cs:419-467 | the method is proved equal to DirectModification, so every status holds exactly for the inputs stated there |
| Processing.ModifyTextureFile | src/QuadProcessorUtility.cs:470-476 | the legacy entry point ignores the current size and does what ModifyTextureFileDirectly does |
| Processing.TargetOf | src/QuadProcessorUtility.cs:396-413 | the target is NewSource when the importer is considered and New otherwise, on the asset's path |
| Processing.ProcessSingleTexture | src/QuadProcessorUtility.cs:396-413 | ModifyTextureFileDirectly on the asset's path and TargetOf size |
| Processing.TargetsOf | src/QuadProcessorUtility.cs:375-383 | one job per asset, in list order |
| Processing.RunJobs | src/QuadProcessorUtility.cs:375-391 | one status per job: the jobs run in order, each on the files the earlier ones left |
| Processing.RunJobsFrame | src/QuadProcessorUtility.cs:375-391 | a batch keeps the set of files and leaves every file no job names as it was |
| Processing.Tally | src/QuadProcessorUtility.cs:373-393 | Total is the number of items, Succeeded + Failed == Total, and Failed is 0 exactly when no item raised |
| Processing.TallyStep | src/QuadProcessorUtility.cs:378-390 | one more item adds one to Total and to exactly one of Succeeded or Failed |
| Processing.ProcessStep | src/QuadProcessorUtility.cs:378-390 | one loop pass runs the next job and adds it to Succeeded, or to Failed when it raised |
| Processing.ProcessTextures | src/QuadProcessorUtility.cs:368-394 | the counters are the Tally of running every asset in order, an exception not stopping the rest; Total is the list length; progress is reported for each item in order |
| Scanning.GetTextureInfo | src/QuadProcessorUtility.cs:54-65 | a loaded texture gives its size; an unreadable or undecodable file gives 0 x 0 |
| Scanning.AnalyzeActualTexture | src/QuadProcessorUtility.cs:320-339 | None exactly when the decoded size is quad-aligned; otherwise a selected asset whose New size is the rounded-up current size |
| Scanning.AnalyzeImportedTexture | src/QuadProcessorUtility.cs:341-362 | None exactly when the import plan needs no work; otherwise a selected asset carrying the plan's imported, new and source sizes |
| Scanning.AnalysisNeedsWork | src/QuadProcessorUtility.cs:308-362 | under either analysis a reported asset is selected, not quad-aligned, and its New size is its current size rounded up |
| Scanning.ActualAnalysisReports | src/QuadProcessorUtility.cs:320-339 | a decodable file is reported exactly when one of its sides is not a multiple of four |
| Scanning.ShouldSkipIgnoresCase | src/QuadProcessorUtility.cs:299-306 | a path and its lower-cased form are skipped alike |
| Scanning.TildeIsSkipped | src/QuadProcessorUtility.cs:299-306 | a path containing '~' is skipped |
| Scanning.ForwardSlashPathsSkipOnlyTilde | src/QuadProcessorUtility.cs:301-305 | a path without a backslash is skipped exactly when it contains '~' |
| Scanning.ScanOne | src/QuadProcessorUtility.cs:277-293 | a file adds one asset exactly when it is not skipped, its analysis does not throw and needs work; the asset is the analysis result |
| Scanning.ScanSpecStep | src/QuadProcessorUtility.cs:272-294 | scanning one more file appends what that file adds, keeping list order |
| Scanning.ScanMembership | src/QuadProcessorUtility.cs:264-297 | an asset is in the scan exactly when some listed file adds it |
| Scanning.ScanNeedsWork | src/QuadProcessorUtility.cs:264-297 | every scanned asset comes from a listed, unskipped path, is selected, is not quad-aligned and has a quad-aligned New size |
| Scanning.ScanFile | src/QuadProcessorUtility.cs:277-293 | one loop body yields exactly what ScanOne describes, a thrown analysis yielding nothing |
| Scanning.ScanTextureFiles | src/QuadProcessorUtility.cs:264-297 | the loop yields the ordered concatenation of what each file adds, and one progress call per listed file, skipped ones included |
| Scanning.TextureListing | src/QuadProcessorUtility.cs:251-262 | the listing is the .png files, then the .jpg files, then the .jpeg files |
| Scanning.FindTextureFiles | src/QuadProcessorUtility.cs:251-262 | the pattern loop appends the three listings in pattern order |
| Scanning.ScanFolderForNonQuadTextures | src/QuadProcessorUtility.cs:243-249 | the scan of the folder's listing, with its progress calls |
| QuadProcessor.EncodeTexture | src/QuadProcessor.cs:99-118 | there is an encoder exactly for .png, .jpg, .jpeg, .tga and .exr, with TGA and EXR for their own extensions |
| QuadProcessor.EncodeTextureExtends | src/QuadProcessor.cs:99-118 | it agrees with the utility's encoder wherever that one has an encoder, and adds only .tga and .exr |
| QuadProcessor.Modification | src/QuadProcessor.cs:9-81 | each status holds exactly for its inputs: SameSizeRequested when the sizes passed in agree; otherwise ReadFailed for a missing file, NotDecoded for refused bytes, ReinitializeFailed for a refused size, EncodeUnsupported without an encoder, EncodeFailed for a null encoding, WriteFailed for a throwing write, and Written when every step succeeds; AlreadyAtTarget never occurs; a write touches only the asset's file |
| QuadProcessor.ModificationWrites | src/QuadProcessor.cs:19-69 | a written file holds the encoded edge-anchored resample of the loaded texture at the new size |
| QuadProcessor.SameLoadedSizeKeepsPixels | src/QuadProcessor.cs:24-56 | when the loaded size already is the new size, the file is re-encoded from its own pixels |
| QuadProcessor.ModifyTextureFile | src/QuadProcessor.cs:9-81 | the method is proved equal to Modification, so every status, Written included, holds exactly for the inputs stated there |
| TextureProcessorChunk.ScaledFloorIsQuotient | Tests/TextureProcessorChunk.cs:39-40 | FloorToInt(i * (c / n)) in exact arithmetic is the integer quotient i * c / n |
| TextureProcessorChunk.ScaledFloorBounds | Tests/TextureProcessorChunk.cs:64-68 | the scale-factor mapping keeps order, and a coordinate below n maps below c, so the Min at line 68 never acts |
| TextureProcessorChunk.NearestScaled | Tests/TextureProcessorChunk.cs:36-81 | the destination buffer has exactly newWidth * newHeight pixels |
| TextureProcessorChunk.NearestScaledPixel | Tests/TextureProcessorChunk.cs:61-75 | destination (x, y) is source (floor(x * cw / nw), floor(y * ch / nh)) |
| TextureProcessorChunk.NearestScaledSameSize | Tests/TextureProcessorChunk.cs:39-72 | at the same size the banded mapping keeps every pixel |
| TextureProcessorChunk.BandedWideningOfPair | Tests/TextureProcessorChunk.cs:64 | widening [a, b] to four pixels gives [a, a, b, b] |
| TextureProcessorChunk.EdgeAnchoredWideningPixel | src/QuadProcessorUtility.cs:524-529 | the edge-anchored widening of [a, b] to four pixels reaches b only at the last pixel |
| TextureProcessorChunk.WideningMappingsDiffer | Tests/TextureProcessorChunk.cs:64 | for a != b the banded and the edge-anchored widening of [a, b] differ |
| TextureProcessorChunk.BandHeight | Tests/TextureProcessorChunk.cs:46 | a band has between 1 and ChunkSize rows, ends inside the image, and is full unless it is the last |
| TextureProcessorChunk.BandsCoverRows | Tests/TextureProcessorChunk.cs:43-46 | every destination row lies in the band row / chunkSize, and in no other band |
| TextureProcessorChunk.WindowFits | Tests/TextureProcessorChunk.cs:50-69 | the window starts inside the source, is not empty, fits in the source, and holds every row of the band, so the Clamp at line 69 never acts |
| TextureProcessorChunk.RowBelowWindowEnd | Tests/TextureProcessorChunk.cs:51 | every band row maps strictly below the window's CeilToInt end |
| TextureProcessorChunk.Window | Tests/TextureProcessorChunk.cs:55 | GetPixels of a window gives width * height pixels |
| TextureProcessorChunk.WindowPixel | Tests/TextureProcessorChunk.cs:55-72 | reading the offset row of the window reads the same source row, in bounds |
| TextureProcessorChunk.BandPixels | Tests/TextureProcessorChunk.cs:47 | a band buffer has newWidth * chunkHeight pixels |
| TextureProcessorChunk.BandIsSlice | Tests/TextureProcessorChunk.cs:80 | band element j is destination element chunkStart * newWidth + j |
| TextureProcessorChunk.BandPixel | Tests/TextureProcessorChunk.cs:75 | band index y * newWidth + x holds destination pixel (x, chunkStart + y) |
| TextureProcessorChunk.BandExtendsPrefix | Tests/TextureProcessorChunk.cs:80 | the rows before a band followed by the band are the rows up to the band's end |
| TextureProcessorChunk.SetPixels | Tests/TextureProcessorChunk.cs:80 | the block replaces the destination from the band's offset, and the rest is unchanged |
| TextureProcessorChunk.FillBandRow | Tests/TextureProcessorChunk.cs:61-76 | the x loop extends the correct prefix of the band by row y, reading the offset window in bounds |
| TextureProcessorChunk.FillBand | Tests/TextureProcessorChunk.cs:57-77 | the y loop fills the chunk buffer with exactly the band's pixels |
| TextureProcessorChunk.ResampleBand | Tests/TextureProcessorChunk.cs:44-80 | one band pass has BandHeight rows and extends the correct prefix of the destination by the band |
| TextureProcessorChunk.ResampleInBands | Tests/TextureProcessorChunk.cs:43-81 | the banded loop yields NearestScaled for any positive band size |
| TextureProcessorChunk.ChunkModification | Tests/TextureProcessorChunk.cs:12-107 | each status holds exactly for its inputs, as for QuadProcessor.Modification but with the banded resample and the PNG/JPG encoders; AlreadyAtTarget never occurs; a zero side is refused like any size the engine rejects; a write has positive sides and touches only the asset's file |
| TextureProcessorChunk.ChunkModificationWrites | Tests/TextureProcessorChunk.cs:84-94 | a written file holds the encoded banded resample of the loaded texture at the new size |
| TextureProcessorChunk.ChunkSameLoadedSizeKeepsPixels | Tests/TextureProcessorChunk.cs:28-94 | when the loaded size already is the new size, the file is re-encoded from its own pixels |
| TextureProcessorChunk.ModifyTextureFile | Tests/TextureProcessorChunk.cs:12-107 | the method is proved equal to ChunkModification with bands of ChunkSize = 128 rows, so every status, Written included, holds exactly for the inputs stated there |
| QuadProcessorContextMenu.ValidTextureIsEncodable | src/QuadProcessorContextMenu.cs:135-144 | a valid texture is exactly a Texture2D whose lower-cased extension has an encoder (.png, .jpg, .jpeg) |
| QuadProcessorContextMenu.ValidateProcessTexture | src/QuadProcessorContextMenu.cs:11-16 | the menu item is enabled exactly when some selected object is a valid texture |
| QuadProcessorContextMenu.ValidCount | src/QuadProcessorContextMenu.cs:25-27 | the number of accepted objects is at most the selection's size, and 0 exactly when none is accepted |
| QuadProcessorContextMenu.InfosOf | src/QuadProcessorContextMenu.cs:30-31 | each object's size is its GetTextureInfo, in selection order |
| QuadProcessorContextMenu.PlanFor | src/QuadProcessorContextMenu.cs:40-44 | an entry keeps the name, path and size; its new size is quad-aligned, within +4 of the old one, and differs when the old one was not aligned |
| QuadProcessorContextMenu.PlanOf | src/QuadProcessorContextMenu.cs:25-45 | the two lists together are no longer than the selection |
| QuadProcessorContextMenu.PlanOfStep | src/QuadProcessorContextMenu.cs:27-44 | one more object skips, lands in alreadyDivisible, or appends its entry to validTextures, according to validity and alignment |
| QuadProcessorContextMenu.PlanCounts | src/QuadProcessorContextMenu.cs:25-45 | the two lists together are exactly as long as the number of valid objects |
| QuadProcessorContextMenu.PlanComplete | src/QuadProcessorContextMenu.cs:33-44 | every valid unaligned object has its entry in validTextures, and every valid aligned one has its name in alreadyDivisible |
| QuadProcessorContextMenu.PlanSound | src/QuadProcessorContextMenu.cs:40-44 | every validTextures entry is the entry of a valid selected object whose size is not aligned |
| QuadProcessorContextMenu.SelectionPartition | src/QuadProcessorContextMenu.cs:25-45 | both lists are empty exactly when the menu item is disabled; each valid texture is in exactly the list its aligned-ness picks; validTextures holds nothing else |
| QuadProcessorContextMenu.UnreadableCountsAsAligned | src/QuadProcessorContextMenu.cs:31-38 | a valid texture that cannot be loaded has size 0 x 0 and goes to alreadyDivisible |
| QuadProcessorContextMenu.PartitionSelection | src/QuadProcessorContextMenu.cs:21-45 | the selection loop builds exactly the two lists of SelectionPlan |
| QuadProcessorContextMenu.JobsOf | src/QuadProcessorContextMenu.cs:93-98 | one ModifyTextureFile call per entry, on its path and new size, in order |
| QuadProcessorContextMenu.MenuReports | src/QuadProcessorContextMenu.cs:87-89 | the bar before entry k shows its name, k + 1 of Count, and fraction k / Count |
| QuadProcessorContextMenu.ProgressFraction | src/QuadProcessorContextMenu.cs:89 | the fraction lies in [0, 1), scales back to the index, and grows with it |
| QuadProcessorContextMenu.ShowProgress | src/QuadProcessorContextMenu.cs:87-89 | one loop pass appends the bar of entry i to the bars shown so far |
| QuadProcessorContextMenu.RunPlanStep | src/QuadProcessorContextMenu.cs:91-106 | one loop pass runs the next job and counts it as processed, or as failed when it raised |
| QuadProcessorContextMenu.RunPlan | src/QuadProcessorContextMenu.cs:83-107 | processed and failed are the counts of running every entry in order, an exception not stopping the rest; they add up to the entry count; one bar per entry |
| QuadProcessorContextMenu.ProcessTextures | src/QuadProcessorContextMenu.cs:18-133 | with nothing to resize no file changes and the dialog says why; a declined confirmation changes nothing; otherwise the plan runs in order and the counters add up to its length |
| QuadProcessorEditor.ConvertToProjectPath | src/QuadProcessorEditorWindow.cs:78-88 | a path under the data path becomes "Assets" followed by the rest of it; any other path is kept |
| QuadProcessorEditor.ProjectPathOfDataFile | src/QuadProcessorEditorWindow.cs:80-83 | the data path followed by a relative path converts to "Assets" followed by that relative path |
| QuadProcessorEditor.SelectedOf | src/QuadProcessorEditorWindow.cs:218 | the filter keeps only selected rows and is no longer than the list |
| QuadProcessorEditor.SelectedOfConcat | src/QuadProcessorEditorWindow.cs:218 | filtering a concatenation filters each part in order, so the filter keeps list order |
| QuadProcessorEditor.SelectedOfMembership | src/QuadProcessorEditorWindow.cs:218 | a row is in the filter exactly when it is in the list and selected |
| QuadProcessorEditor.SelectedOfEmpty | src/QuadProcessorEditorWindow.cs:218-220 | the filter is empty exactly when no row is selected |
| QuadProcessorEditor.SelectedOfAllSelected | src/QuadProcessorEditorWindow.cs:218 | with every row selected the filter is the whole list |
| QuadProcessorEditor.ScanOfFolder | src/QuadProcessorEditorWindow.cs:178-184 | a missing folder leaves an empty list |
| QuadProcessorEditor.QuadProcessorEditorWindow.constructor | src/QuadProcessorEditorWindow.cs:11-15 | a new window has no rows, both toggles on, and targets "Assets" |
| QuadProcessorEditor.QuadProcessorEditorWindow.SelectedTextures | src/QuadProcessorEditorWindow.cs:218 | the rows to process are exactly the selected rows of the list |
| QuadProcessorEditor.QuadProcessorEditorWindow.BrowseForFolder | src/QuadProcessorEditorWindow.cs:67-76 | an empty answer changes nothing; any other answer becomes the converted project path; nothing else changes |
| QuadProcessorEditor.QuadProcessorEditorWindow.ToggleAllTextures | src/QuadProcessorEditorWindow.cs:114-120 | every row's Selected becomes the value; length, order, other fields and options are unchanged |
| QuadProcessorEditor.QuadProcessorEditorWindow.ScanTextures | src/QuadProcessorEditorWindow.cs:176-207 | the list is cleared and then holds the folder's scan, empty for a missing folder; the progress calls are none for a missing folder and one per listed file otherwise; the options are unchanged |
| QuadProcessorEditor.QuadProcessorEditorWindow.ProcessAndRescan | src/QuadProcessorEditorWindow.cs:216-268 | the selected rows are processed in order, the counters are the Tally of that run, and the list becomes the rescan of the resulting files |
| QuadProcessorEditor.QuadProcessorEditorWindow.ProcessSelectedTextures | src/QuadProcessorEditorWindow.cs:216-268 | with no selected row, or no confirmation, nothing is processed and the list stays; otherwise the selected rows are processed in order and the list is rescanned from the resulting files |
| QuadProcessorEditor.ToggledSelection | src/QuadProcessorEditorWindow.cs:101-109 | after Select All the whole list is processed; after Deselect All nothing is |

## Left out

- File and engine I/O are the fields of `Engine.Host`, taken as given: `LoadImage`, the encoders, `Reinitialize` and the `Texture2D` constructor, `File.WriteAllBytes`, the importer's `maxTextureSize`, `Directory.Exists` and `Directory.GetFiles`. Their own behaviour is outside the plugin.
- `AssetDatabase.ImportAsset`, `StartAssetEditing`, `StopAssetEditing` and `Refresh`: the reimport is the engine's work. Later reads see the written bytes directly.
- GUI and editor glue are not modelled, because they are display only: `OnGUI`, the Draw* methods, the per-row checkbox, dialogs and progress-bar drawing, `MenuItem` registration, `DestroyImmediate`, `DateTime` timing and `Debug.Log` output. Dialog answers (confirmation, folder panel) are parameters. The progress bars and callbacks are returned as sequences of calls. The dialog the context menu ends with is a `MenuResult`.
- Floats are exact rationals, so single-precision rounding of `u * (cw - 1)`, `x * scaleX` and the importer ratios is not modelled.
- `Resampler.EdgeAnchored`: for a new side of 1 the source divides 0 by 0. The model writes the clamped coordinate 0 directly instead of modelling NaN conversion.
- C# `int` is 32 bits: overflow of `newWidth * newHeight` and of the pixel-count products is not modelled, because sizes are unbounded naturals here.
- `PathText.ToLower` lower-cases ASCII letters only, and `PathText.StartsWith` is an ordinal prefix test. The culture-sensitive rules of .NET `ToLower` and `StartsWith` are not modelled.
- TGA and EXR encoding in `src/QuadProcessor.cs` sits behind a Unity version switch. The model takes both encoders as present.
- `Host.Valid` takes the engine to refuse a side of 0: `Reinitialize(0, h)` returns false and `new Texture2D(0, h)` throws. So `Processing.DirectModification`, `QuadProcessor.Modification` and `TextureProcessorChunk.ChunkModification` all end with `ReinitializeFailed` for a zero side. What the engine really does with a zero size is not part of this model.
- `GetPixels` and `Reinitialize` also carry the texture format and mipmap flag. These are passed through unchanged and do not affect pixel values, so the model omits them.
- A texture is a value in the model, so the in-place `Reinitialize` and `SetPixels` are folded into the texture that is written. The window's rows are values, so any row objects shared with other code (aliasing) are not modelled.
- `Tests/TextureProcessorRT.cs` is not part of this model. It resizes on the GPU through `Graphics.Blit` and saves and restores importer settings, which leaves no visible algorithm.
- `TextureProcessorChunk.NearestAt` has no contract of its own. Its pixel facts are stated by `NearestScaledPixel` and `BandPixel`, and its in-bounds reads by `ScaledFloorBounds` and `WindowFits`.
- `Structs.cs` as shown declares no `SourceWidth`, `SourceHeight`, `NewSourceWidth` or `NewSourceHeight` on `TextureAsset`. The model adds them from their use in `src/QuadProcessorUtility.cs:349-361`.
- The context menu's `Texture2D` reference is kept only through its name and asset path (`SelectedObject`), which is all the menu uses.
