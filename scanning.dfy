/**
 * The scanning half of QuadProcessorUtility: list the image files of a folder, skip
 * excluded paths, analyse each remaining file and keep those whose size is not a
 * multiple of four.
 */
module Scanning {
  import opened Wrappers
  import opened PathText
  import opened Structs
  import opened Engine
  import opened DimensionMath
  import opened Seqs

  /** ScanOptions: the folder to scan, whether to recurse, and which size to test. */
  datatype ScanOptions = ScanOptions(FolderPath: string, IncludeSubfolders: bool, ConsiderImporterMaxSize: bool)

  /** GetTextureInfo: the decoded size of a file, 0 x 0 when it cannot be read or decoded. */
  function GetTextureInfo<P>(host: Host<P>, files: Files, path: string): (info: TextureInfo)
    requires host.Valid()
    ensures (info.Width == 0) == (info.Height == 0)
    ensures LoadTextureFromFile(host, files, path).Loaded? ==>
      info == TextureInfo(LoadTextureFromFile(host, files, path).texture.width,
                          LoadTextureFromFile(host, files, path).texture.height)
    ensures !LoadTextureFromFile(host, files, path).Loaded? ==> info == TextureInfo(0, 0)
  {
    match LoadTextureFromFile(host, files, path)
    case Loaded(texture) => TextureInfo(texture.width, texture.height)
    case _ => TextureInfo(0, 0)
  }

  /** AnalyzeActualTexture: an asset for the decoded size, or None when it is already quad-aligned. */
  function AnalyzeActualTexture<P>(host: Host<P>, files: Files, filePath: string): (asset: Option<TextureAsset>)
    requires host.Valid()
    ensures var info := GetTextureInfo(host, files, filePath);
      asset.None? <==> AreDimensionsDivisibleByFour(info.Width, info.Height)
    ensures asset.Some? ==> var info := GetTextureInfo(host, files, filePath);
      asset.value == TextureAsset(filePath, info.Width, info.Height,
        CalculateDivisibleByFour(info.Width), CalculateDivisibleByFour(info.Height), true, 0, 0, 0, 0)
  {
    var info := GetTextureInfo(host, files, filePath);
    if AreDimensionsDivisibleByFour(info.Width, info.Height) then None
    else
      var newWidth := CalculateDivisibleByFour(info.Width);
      var newHeight := CalculateDivisibleByFour(info.Height);
      Some(TextureAsset(filePath, info.Width, info.Height, newWidth, newHeight, true, 0, 0, 0, 0))
  }

  /** The import plan of a file: GetImportedTextureInfo on its importer's maximum and its decoded size. */
  function ImportPlan<P>(host: Host<P>, files: Files, filePath: string): (info: ImportedTextureInfo)
    requires host.Valid()
  {
    GetImportedTextureInfo(host.importerMaxSize(filePath), GetTextureInfo(host, files, filePath))
  }

  /** AnalyzeImportedTexture: an asset for the imported size, or None when the plan needs no work. */
  function AnalyzeImportedTexture<P>(host: Host<P>, files: Files, filePath: string): (asset: Option<TextureAsset>)
    requires host.Valid()
    ensures asset.None? <==> !ImportPlan(host, files, filePath).NeedsProcessing
    ensures asset.Some? ==> var info := ImportPlan(host, files, filePath);
      asset.value == TextureAsset(filePath, info.ImportedWidth, info.ImportedHeight,
        info.NewImportedWidth, info.NewImportedHeight, true,
        info.SourceWidth, info.SourceHeight, info.NewSourceWidth, info.NewSourceHeight)
  {
    var importedInfo := ImportPlan(host, files, filePath);
    if !importedInfo.NeedsProcessing then None
    else Some(TextureAsset(filePath, importedInfo.ImportedWidth, importedInfo.ImportedHeight,
      importedInfo.NewImportedWidth, importedInfo.NewImportedHeight, true,
      importedInfo.SourceWidth, importedInfo.SourceHeight,
      importedInfo.NewSourceWidth, importedInfo.NewSourceHeight))
  }

  /** AnalyzeTextureFile: the importer-aware or the plain analysis. */
  function AnalyzeTextureFile<P>(host: Host<P>, files: Files, filePath: string, considerImporterMaxSize: bool): (asset: Option<TextureAsset>)
    requires host.Valid()
  {
    if considerImporterMaxSize then AnalyzeImportedTexture(host, files, filePath)
    else AnalyzeActualTexture(host, files, filePath)
  }

  /**
   * Whatever the analysis, a reported asset is selected, its current size is not
   * quad-aligned and its new size is that size rounded up to multiples of four.
   */
  lemma AnalysisNeedsWork<P>(host: Host<P>, files: Files, filePath: string, considerImporterMaxSize: bool)
    requires host.Valid()
    ensures var asset := AnalyzeTextureFile(host, files, filePath, considerImporterMaxSize);
      asset.Some? ==>
        && asset.value.Path == filePath && asset.value.Selected
        && !AreDimensionsDivisibleByFour(asset.value.CurrentWidth, asset.value.CurrentHeight)
        && asset.value.NewWidth == CalculateDivisibleByFour(asset.value.CurrentWidth)
        && asset.value.NewHeight == CalculateDivisibleByFour(asset.value.CurrentHeight)
        && AreDimensionsDivisibleByFour(asset.value.NewWidth, asset.value.NewHeight)
  {
  }

  /** A file it can read and decode is reported by the plain analysis exactly when a side is not a multiple of four. */
  lemma ActualAnalysisReports<P>(host: Host<P>, files: Files, filePath: string)
    requires host.Valid()
    requires LoadTextureFromFile(host, files, filePath).Loaded?
    ensures var texture := LoadTextureFromFile(host, files, filePath).texture;
      AnalyzeActualTexture(host, files, filePath).Some? <==> texture.width % 4 != 0 || texture.height % 4 != 0
  {
  }

  /** ShouldSkipFile: the lower-cased path names an excluded folder or contains '~'. */
  predicate ShouldSkipFile(filePath: string)
  {
    var loweredPath := ToLower(filePath);
    Contains(loweredPath, "assets\\plugins") ||
    Contains(loweredPath, "assets\\samples") ||
    Contains(loweredPath, "assets\\editor") ||
    Contains(loweredPath, "~")
  }

  /** Skipping ignores case: a path and its lower-cased form are skipped alike. */
  lemma ShouldSkipIgnoresCase(filePath: string)
    ensures ShouldSkipFile(ToLower(filePath)) == ShouldSkipFile(filePath)
  {
    ToLowerIdempotent(filePath);
  }

  /** A path with a '~' anywhere is skipped. */
  lemma TildeIsSkipped(filePath: string)
    ensures '~' in filePath ==> ShouldSkipFile(filePath)
  {
    var loweredPath := ToLower(filePath);
    if '~' in filePath {
      var i :| 0 <= i < |filePath| && filePath[i] == '~';
      assert loweredPath[i] == '~';
      ContainsChar(loweredPath, '~');
    }
  }

  /**
   * The folder patterns are written with a backslash, so a path without one is
   * skipped exactly when it contains '~'.
   */
  lemma ForwardSlashPathsSkipOnlyTilde(filePath: string)
    requires '\\' !in filePath
    ensures ShouldSkipFile(filePath) <==> '~' in filePath
  {
    var loweredPath := ToLower(filePath);
    assert '\\' !in loweredPath;
    ContainsChar(loweredPath, '~');
    assert "assets\\plugins"[6] == '\\' && "assets\\samples"[6] == '\\' && "assets\\editor"[6] == '\\';
    if Contains(loweredPath, "assets\\plugins") { ContainsKeepsChars(loweredPath, "assets\\plugins", 6); }
    if Contains(loweredPath, "assets\\samples") { ContainsKeepsChars(loweredPath, "assets\\samples", 6); }
    if Contains(loweredPath, "assets\\editor") { ContainsKeepsChars(loweredPath, "assets\\editor", 6); }
    if '~' in loweredPath {
      var i :| 0 <= i < |loweredPath| && loweredPath[i] == '~';
      assert filePath[i] == '~';
    }
    if '~' in filePath {
      TildeIsSkipped(filePath);
    }
  }

  /** What one listed file adds to the scan: nothing when skipped, when analysing it throws or when it needs no work. */
  function ScanOne<P>(host: Host<P>, files: Files, filePath: string, considerImporterMaxSize: bool): (added: seq<TextureAsset>)
    requires host.Valid()
    ensures |added| <= 1
    ensures |added| == 1 <==>
      (!ShouldSkipFile(filePath) && !host.analysisRaises(filePath) &&
       AnalyzeTextureFile(host, files, filePath, considerImporterMaxSize).Some?)
    ensures |added| == 1 ==> added[0] == AnalyzeTextureFile(host, files, filePath, considerImporterMaxSize).value
  {
    if ShouldSkipFile(filePath) || host.analysisRaises(filePath) then []
    else match AnalyzeTextureFile(host, files, filePath, considerImporterMaxSize)
      case None => []
      case Some(asset) => [asset]
  }

  /** What each listed file adds, in list order. */
  function ScanParts<P>(host: Host<P>, files: Files, fileList: seq<string>, considerImporterMaxSize: bool): (parts: seq<seq<TextureAsset>>)
    requires host.Valid()
    ensures |parts| == |fileList|
    ensures forall i :: 0 <= i < |fileList| ==> parts[i] == ScanOne(host, files, fileList[i], considerImporterMaxSize)
  {
    seq(|fileList|, i requires 0 <= i < |fileList| => ScanOne(host, files, fileList[i], considerImporterMaxSize))
  }

  /** ScanTextureFiles as a value: the assets of the listed files, in list order. */
  function ScanSpec<P>(host: Host<P>, files: Files, fileList: seq<string>, considerImporterMaxSize: bool): (assets: seq<TextureAsset>)
    requires host.Valid()
  {
    Flatten(ScanParts(host, files, fileList, considerImporterMaxSize))
  }

  /** Scanning one more file of a list appends what that file adds. */
  lemma ScanSpecStep<P>(host: Host<P>, files: Files, fileList: seq<string>, considerImporterMaxSize: bool, i: nat)
    requires host.Valid() && i < |fileList|
    ensures ScanSpec(host, files, fileList[..i + 1], considerImporterMaxSize)
      == ScanSpec(host, files, fileList[..i], considerImporterMaxSize) + ScanOne(host, files, fileList[i], considerImporterMaxSize)
  {
    var before := ScanParts(host, files, fileList[..i], considerImporterMaxSize);
    var added := ScanOne(host, files, fileList[i], considerImporterMaxSize);
    assert ScanParts(host, files, fileList[..i + 1], considerImporterMaxSize) == before + [added];
    FlattenAppend(before, added);
  }

  /**
   * An asset is in the scan exactly when a listed file adds it: a file that is not
   * skipped, does not throw and needs work.
   */
  lemma ScanMembership<P>(host: Host<P>, files: Files, fileList: seq<string>,
                          considerImporterMaxSize: bool, asset: TextureAsset)
    requires host.Valid()
    ensures asset in ScanSpec(host, files, fileList, considerImporterMaxSize) <==>
      exists i :: 0 <= i < |fileList| && asset in ScanOne(host, files, fileList[i], considerImporterMaxSize)
  {
    var parts := ScanParts(host, files, fileList, considerImporterMaxSize);
    FlattenMembership(parts, asset);
  }

  /** Every asset of a scan needs work: selected, not quad-aligned, with its rounded-up size as the target. */
  lemma ScanNeedsWork<P>(host: Host<P>, files: Files, fileList: seq<string>, considerImporterMaxSize: bool)
    requires host.Valid()
    ensures forall a :: a in ScanSpec(host, files, fileList, considerImporterMaxSize) ==>
      && a.Path in fileList && !ShouldSkipFile(a.Path) && a.Selected
      && !AreDimensionsDivisibleByFour(a.CurrentWidth, a.CurrentHeight)
      && AreDimensionsDivisibleByFour(a.NewWidth, a.NewHeight)
  {
    forall a | a in ScanSpec(host, files, fileList, considerImporterMaxSize)
      ensures && a.Path in fileList && !ShouldSkipFile(a.Path) && a.Selected
        && !AreDimensionsDivisibleByFour(a.CurrentWidth, a.CurrentHeight)
        && AreDimensionsDivisibleByFour(a.NewWidth, a.NewHeight)
    {
      ScanMembership(host, files, fileList, considerImporterMaxSize, a);
      var i :| 0 <= i < |fileList| && a in ScanOne(host, files, fileList[i], considerImporterMaxSize);
      AnalysisNeedsWork(host, files, fileList[i], considerImporterMaxSize);
    }
  }

  /** The body of the ScanTextureFiles loop after its progress report: what one file adds to the result. */
  method ScanFile<P>(host: Host<P>, files: Files, file: string, considerImporterMaxSize: bool)
    returns (added: seq<TextureAsset>)
    requires host.Valid()
    ensures added == ScanOne(host, files, file, considerImporterMaxSize)
  {
    added := [];
    if ShouldSkipFile(file) {
      return;
    }
    if !host.analysisRaises(file) {
      var textureAsset := AnalyzeTextureFile(host, files, file, considerImporterMaxSize);
      if textureAsset.Some? {
        added := [textureAsset.value];
      }
    }
  }

  /** ScanTextureFiles: report progress for every listed file, then keep the assets of those that need work. */
  method ScanTextureFiles<P>(host: Host<P>, files: Files, fileList: seq<string>, considerImporterMaxSize: bool)
    returns (result: seq<TextureAsset>, progress: seq<Progress>)
    requires host.Valid()
    ensures result == ScanSpec(host, files, fileList, considerImporterMaxSize)
    ensures progress == ProgressReports(fileList)
  {
    result := [];
    progress := [];
    var fileCount := |fileList|;
    var processedCount := 0;
    ghost var reports := ProgressReports(fileList);
    for i := 0 to |fileList|
      invariant processedCount == i
      invariant result == ScanSpec(host, files, fileList[..i], considerImporterMaxSize)
      invariant progress == reports[..i]
    {
      var file := fileList[i];
      processedCount := processedCount + 1;
      var fileName := GetFileName(file);
      ProgressReportsPrefix(fileList, i);
      progress := progress + [Progress(fileName, processedCount, fileCount)];
      var added := ScanFile(host, files, file, considerImporterMaxSize);
      ScanSpecStep(host, files, fileList, considerImporterMaxSize, i);
      result := result + added;
    }
    assert fileList[..|fileList|] == fileList;
    assert reports[..|fileList|] == reports;
  }

  /** The patterns FindTextureFiles lists, in order. */
  const TexturePatterns: seq<string> := ["*.png", "*.jpg", "*.jpeg"]

  /** The files listed for each pattern in turn. */
  function ListingFor<P>(host: Host<P>, folderPath: string, includeSubfolders: bool, patterns: seq<string>): (listed: seq<string>)
    decreases |patterns|
  {
    if |patterns| == 0 then []
    else
      ListingFor(host, folderPath, includeSubfolders, patterns[..|patterns| - 1])
        + host.listFiles(folderPath, patterns[|patterns| - 1], includeSubfolders)
  }

  /** The listing of the three patterns is the PNG files, then the JPG files, then the JPEG files. */
  lemma TextureListing<P>(host: Host<P>, folderPath: string, includeSubfolders: bool)
    ensures ListingFor(host, folderPath, includeSubfolders, TexturePatterns)
      == host.listFiles(folderPath, "*.png", includeSubfolders)
       + host.listFiles(folderPath, "*.jpg", includeSubfolders)
       + host.listFiles(folderPath, "*.jpeg", includeSubfolders)
  {
    var png := host.listFiles(folderPath, "*.png", includeSubfolders);
    var jpg := host.listFiles(folderPath, "*.jpg", includeSubfolders);
    assert TexturePatterns[..2] == ["*.png", "*.jpg"];
    assert ["*.png", "*.jpg"][..1] == ["*.png"];
    assert ["*.png"][..0] == [];
    assert ListingFor(host, folderPath, includeSubfolders, ["*.png"]) == [] + png;
    assert ListingFor(host, folderPath, includeSubfolders, ["*.png", "*.jpg"]) == png + jpg;
  }

  /** FindTextureFiles: one directory listing per pattern, appended in pattern order. */
  method FindTextureFiles<P>(host: Host<P>, folderPath: string, includeSubfolders: bool)
    returns (textureFiles: seq<string>)
    ensures textureFiles == host.listFiles(folderPath, "*.png", includeSubfolders)
      + host.listFiles(folderPath, "*.jpg", includeSubfolders)
      + host.listFiles(folderPath, "*.jpeg", includeSubfolders)
  {
    var fileExtensions := TexturePatterns;
    textureFiles := [];
    for k := 0 to |fileExtensions|
      invariant textureFiles == ListingFor(host, folderPath, includeSubfolders, fileExtensions[..k])
    {
      assert fileExtensions[..k + 1][..k] == fileExtensions[..k];
      textureFiles := textureFiles + host.listFiles(folderPath, fileExtensions[k], includeSubfolders);
    }
    assert fileExtensions[..|fileExtensions|] == fileExtensions;
    TextureListing(host, folderPath, includeSubfolders);
  }

  /** ScanFolderForNonQuadTextures: list the folder's image files and scan them. */
  method ScanFolderForNonQuadTextures<P>(host: Host<P>, files: Files, options: ScanOptions)
    returns (result: seq<TextureAsset>, progress: seq<Progress>)
    requires host.Valid()
    ensures var textureFiles := ListingFor(host, options.FolderPath, options.IncludeSubfolders, TexturePatterns);
      result == ScanSpec(host, files, textureFiles, options.ConsiderImporterMaxSize)
      && progress == ProgressReports(textureFiles)
  {
    var textureFiles := FindTextureFiles(host, options.FolderPath, options.IncludeSubfolders);
    TextureListing(host, options.FolderPath, options.IncludeSubfolders);
    result, progress := ScanTextureFiles(host, files, textureFiles, options.ConsiderImporterMaxSize);
  }
}
