/**
 * QuadProcessorEditorWindow: the "Quad Sprite Processor" tool window. It keeps the scanned
 * list and the window's options, scans a folder into the list, toggles every row's
 * selection, and processes the selected rows before rescanning.
 */
module QuadProcessorEditor {
  import opened Wrappers
  import opened PathText
  import opened Structs
  import opened Engine
  import opened Processing
  import opened Scanning

  /**
   * ConvertToProjectPath: a folder under the project's data path (Application.dataPath,
   * passed in) becomes "Assets" followed by the rest of the path; any other path is kept.
   */
  function ConvertToProjectPath(fullPath: string, dataPath: string): (projectPath: string)
    ensures StartsWith(fullPath, dataPath) ==>
      StartsWith(projectPath, "Assets") && dataPath + projectPath[|"Assets"|..] == fullPath
    ensures !StartsWith(fullPath, dataPath) ==> projectPath == fullPath
  {
    if StartsWith(fullPath, dataPath) then
      var rest := fullPath[|dataPath|..];
      assert dataPath + rest == fullPath;
      var projectPath := "Assets" + rest;
      assert projectPath[|"Assets"|..] == rest;
      projectPath
    else fullPath
  }

  /** A path inside the data folder converts to the same relative path under "Assets". */
  lemma ProjectPathOfDataFile(dataPath: string, relative: string)
    ensures ConvertToProjectPath(dataPath + relative, dataPath) == "Assets" + relative
  {
    assert StartsWith(dataPath + relative, dataPath) by {
      assert (dataPath + relative)[..|dataPath|] == dataPath;
    }
    assert (dataPath + relative)[|dataPath|..] == relative;
  }

  /** The rows of a list whose Selected flag is set, in list order (List.FindAll). */
  function SelectedOf(textures: seq<TextureAsset>): (selected: seq<TextureAsset>)
    ensures |selected| <= |textures|
    ensures forall k :: 0 <= k < |selected| ==> selected[k].Selected
    decreases |textures|
  {
    if |textures| == 0 then []
    else
      var before := SelectedOf(textures[..|textures| - 1]);
      var last := textures[|textures| - 1];
      if last.Selected then before + [last] else before
  }

  /** Filtering a concatenation filters each part, in order: the filter keeps the list's order. */
  lemma {:induction false} SelectedOfConcat(a: seq<TextureAsset>, b: seq<TextureAsset>)
    ensures SelectedOf(a + b) == SelectedOf(a) + SelectedOf(b)
    decreases |b|
  {
    if |b| > 0 {
      var b' := b[..|b| - 1];
      assert (a + b)[..|a + b| - 1] == a + b';
      SelectedOfConcat(a, b');
    } else {
      assert a + b == a;
    }
  }

  /** The filter keeps exactly the selected rows. */
  lemma {:induction false} SelectedOfMembership(textures: seq<TextureAsset>, t: TextureAsset)
    ensures t in SelectedOf(textures) <==> t in textures && t.Selected
    decreases |textures|
  {
    if |textures| > 0 {
      var before := textures[..|textures| - 1];
      SelectedOfMembership(before, t);
      assert textures == before + [textures[|textures| - 1]];
    }
  }

  /** The filter is empty exactly when no row is selected. */
  lemma {:induction false} SelectedOfEmpty(textures: seq<TextureAsset>)
    ensures |SelectedOf(textures)| == 0 <==> forall k :: 0 <= k < |textures| ==> !textures[k].Selected
    decreases |textures|
  {
    if |textures| > 0 {
      var before := textures[..|textures| - 1];
      SelectedOfEmpty(before);
      assert forall k :: 0 <= k < |before| ==> before[k] == textures[k];
    }
  }

  /** When every row is selected the filter keeps the whole list. */
  lemma {:induction false} SelectedOfAllSelected(textures: seq<TextureAsset>)
    requires forall k :: 0 <= k < |textures| ==> textures[k].Selected
    ensures SelectedOf(textures) == textures
    decreases |textures|
  {
    if |textures| > 0 {
      var before := textures[..|textures| - 1];
      assert forall k :: 0 <= k < |before| ==> before[k] == textures[k];
      SelectedOfAllSelected(before);
      assert textures == before + [textures[|textures| - 1]];
    }
  }

  /** The list a scan leaves: empty when the folder does not exist, the scan result otherwise. */
  function ScanOfFolder<P>(host: Host<P>, files: Files, targetFolder: string,
                           processSubfolders: bool, considerImporterMaxSize: bool): (textures: seq<TextureAsset>)
    requires host.Valid()
    ensures !host.directoryExists(targetFolder) ==> textures == []
  {
    if !host.directoryExists(targetFolder) then []
    else
      var textureFiles := ListingFor(host, targetFolder, processSubfolders, TexturePatterns);
      ScanSpec(host, files, textureFiles, considerImporterMaxSize)
  }

  class QuadProcessorEditorWindow {
    /** _textures: the rows of the last scan. */
    var textures: seq<TextureAsset>
    /** _considerImporterMaxSize, the "Consider Imported Size" toggle. */
    var considerImporterMaxSize: bool
    /** _processSubfolders, the "Include Subfolders" toggle. */
    var processSubfolders: bool
    /** _targetFolder, the folder to scan. */
    var targetFolder: string

    /** A new window: no rows, both toggles on, scanning "Assets". */
    constructor()
      ensures textures == [] && considerImporterMaxSize && processSubfolders && targetFolder == "Assets"
    {
      textures := [];
      considerImporterMaxSize := true;
      processSubfolders := true;
      targetFolder := "Assets";
    }

    /** The rows the "Process Selected Sprites" button would process. */
    function SelectedTextures(): (selected: seq<TextureAsset>)
      reads this
      ensures forall t :: t in selected <==> t in textures && t.Selected
    {
      forall t ensures t in SelectedOf(textures) <==> t in textures && t.Selected {
        SelectedOfMembership(textures, t);
      }
      SelectedOf(textures)
    }

    /** BrowseForFolder, with the folder panel's answer passed in: an empty answer changes nothing. */
    method BrowseForFolder(newPath: string, dataPath: string)
      modifies this
      ensures newPath == "" ==> targetFolder == old(targetFolder)
      ensures newPath != "" ==> targetFolder == ConvertToProjectPath(newPath, dataPath)
      ensures textures == old(textures) && considerImporterMaxSize == old(considerImporterMaxSize)
      ensures processSubfolders == old(processSubfolders)
    {
      if |newPath| == 0 {
        return;
      }
      targetFolder := ConvertToProjectPath(newPath, dataPath);
    }

    /** ToggleAllTextures: every row's Selected becomes the given value; nothing else changes. */
    method ToggleAllTextures(selected: bool)
      modifies this
      ensures |textures| == |old(textures)|
      ensures forall k :: 0 <= k < |textures| ==> textures[k] == old(textures)[k].(Selected := selected)
      ensures considerImporterMaxSize == old(considerImporterMaxSize) && processSubfolders == old(processSubfolders)
      ensures targetFolder == old(targetFolder)
    {
      for k := 0 to |textures|
        invariant |textures| == |old(textures)|
        invariant forall j :: 0 <= j < k ==> textures[j] == old(textures)[j].(Selected := selected)
        invariant forall j :: k <= j < |textures| ==> textures[j] == old(textures)[j]
        invariant considerImporterMaxSize == old(considerImporterMaxSize) && processSubfolders == old(processSubfolders)
        invariant targetFolder == old(targetFolder)
      {
        textures := textures[k := textures[k].(Selected := selected)];
      }
    }

    /**
     * ScanTextures: the list is cleared first, so a missing folder leaves it empty; otherwise
     * it holds what ScanFolderForNonQuadTextures finds with the window's options.
     */
    method ScanTextures<P>(host: Host<P>, files: Files) returns (progress: seq<Progress>)
      requires host.Valid()
      modifies this
      ensures textures == ScanOfFolder(host, files, targetFolder, processSubfolders, considerImporterMaxSize)
      ensures !host.directoryExists(targetFolder) ==> progress == []
      ensures host.directoryExists(targetFolder) ==>
        progress == ProgressReports(ListingFor(host, targetFolder, processSubfolders, TexturePatterns))
      ensures considerImporterMaxSize == old(considerImporterMaxSize) && processSubfolders == old(processSubfolders)
      ensures targetFolder == old(targetFolder)
    {
      textures := [];
      progress := [];
      if !host.directoryExists(targetFolder) {
        return;
      }
      var scanOptions := ScanOptions(targetFolder, processSubfolders, considerImporterMaxSize);
      var found;
      found, progress := ScanFolderForNonQuadTextures(host, files, scanOptions);
      textures := textures + found;
    }

    /**
     * The confirmed half of ProcessSelectedTextures: the selected rows are processed in list
     * order with the window's importer option, and the list is rescanned from the files the
     * processing left.
     */
    method ProcessAndRescan<P(0)>(host: Host<P>, files: Files) returns (processed: ProcessingResult, newFiles: Files)
      requires host.Valid()
      modifies this
      ensures processed == Tally(RunJobs(host, files, TargetsOf(SelectedOf(old(textures)), considerImporterMaxSize)).0)
      ensures newFiles == RunJobs(host, files, TargetsOf(SelectedOf(old(textures)), considerImporterMaxSize)).1
      ensures textures == ScanOfFolder(host, newFiles, targetFolder, processSubfolders, considerImporterMaxSize)
      ensures considerImporterMaxSize == old(considerImporterMaxSize) && processSubfolders == old(processSubfolders)
      ensures targetFolder == old(targetFolder)
    {
      var selectedTextures := SelectedOf(textures);
      var progress;
      processed, progress, newFiles := ProcessTextures(host, files, selectedTextures, considerImporterMaxSize);
      textures := [];
      var scanProgress := ScanTextures(host, newFiles);
    }

    /**
     * ProcessSelectedTextures, with the confirmation dialog's answer passed in. Without a
     * selected row, or without confirmation, nothing is processed and the list stays. Otherwise
     * the selected rows are processed in list order with the window's importer option, and the
     * list is rescanned from the files the processing left.
     */
    method ProcessSelectedTextures<P(0)>(host: Host<P>, files: Files, confirmed: bool)
      returns (result: Option<ProcessingResult>, newFiles: Files)
      requires host.Valid()
      modifies this
      ensures |SelectedOf(old(textures))| == 0 || !confirmed ==>
        result == None && newFiles == files && textures == old(textures)
      ensures |SelectedOf(old(textures))| > 0 && confirmed ==>
        && result == Some(Tally(RunJobs(host, files, TargetsOf(SelectedOf(old(textures)), considerImporterMaxSize)).0))
        && newFiles == RunJobs(host, files, TargetsOf(SelectedOf(old(textures)), considerImporterMaxSize)).1
        && textures == ScanOfFolder(host, newFiles, targetFolder, processSubfolders, considerImporterMaxSize)
      ensures considerImporterMaxSize == old(considerImporterMaxSize) && processSubfolders == old(processSubfolders)
      ensures targetFolder == old(targetFolder)
    {
      newFiles := files;
      result := None;
      if |SelectedOf(textures)| == 0 {
        return;
      }
      if !confirmed {
        return;
      }
      var processed;
      processed, newFiles := ProcessAndRescan(host, files);
      result := Some(processed);
    }
  }

  /** After "Select All" the whole list is processed; after "Deselect All" nothing is. */
  lemma ToggledSelection(textures: seq<TextureAsset>, selected: bool)
    ensures var toggled := seq(|textures|, k requires 0 <= k < |textures| => textures[k].(Selected := selected));
      SelectedOf(toggled) == (if selected then toggled else [])
  {
    var toggled := seq(|textures|, k requires 0 <= k < |textures| => textures[k].(Selected := selected));
    if selected {
      SelectedOfAllSelected(toggled);
    } else {
      SelectedOfEmpty(toggled);
    }
  }
}
