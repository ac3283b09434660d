/**
 * The plugin's records. A C# int field that a constructor leaves unset is 0,
 * and the model writes that 0 out wherever the source relies on it.
 */
module Structs {
  import opened PathText

  /** Pixel size of a texture file; 0 x 0 when the file could not be decoded. */
  datatype TextureInfo = TextureInfo(Width: nat, Height: nat)

  /**
   * One row of a scan result. Current and New are the imported sizes (equal to the
   * file's size when the importer clamp is not considered); the Source fields are
   * only filled in by the importer-aware analysis.
   */
  datatype TextureAsset = TextureAsset(
    Path: string,
    CurrentWidth: nat,
    CurrentHeight: nat,
    NewWidth: nat,
    NewHeight: nat,
    Selected: bool,
    SourceWidth: nat,
    SourceHeight: nat,
    NewSourceWidth: nat,
    NewSourceHeight: nat)

  /** The resize plan of one asset when the importer's max-size clamp is considered. */
  datatype ImportedTextureInfo = ImportedTextureInfo(
    SourceWidth: nat,
    SourceHeight: nat,
    ImportedWidth: nat,
    ImportedHeight: nat,
    NewImportedWidth: nat,
    NewImportedHeight: nat,
    NewSourceWidth: nat,
    NewSourceHeight: nat,
    NeedsProcessing: bool)

  /** What `new ImportedTextureInfo()` holds: every size 0, nothing to do. */
  const EmptyImportedTextureInfo := ImportedTextureInfo(0, 0, 0, 0, 0, 0, 0, 0, false)

  /** ProcessingResult: the counters of one processing run. */
  datatype ProcessingResult = ProcessingResult(Total: nat, Succeeded: nat, Failed: nat)

  /** One call of the ProgressCallback delegate. */
  datatype Progress = Progress(fileName: string, current: nat, total: nat)

  /** The progress calls of a loop over paths: file name, 1-based position, count. */
  function ProgressReports(paths: seq<string>): (reports: seq<Progress>)
    ensures |reports| == |paths|
    ensures forall i :: 0 <= i < |paths| ==> reports[i] == Progress(GetFileName(paths[i]), i + 1, |paths|)
  {
    seq(|paths|, i requires 0 <= i < |paths| => Progress(GetFileName(paths[i]), i + 1, |paths|))
  }

  /** The first i + 1 reports are the first i followed by the report for path i. */
  lemma ProgressReportsPrefix(paths: seq<string>, i: nat)
    requires i < |paths|
    ensures ProgressReports(paths)[..i + 1] == ProgressReports(paths)[..i] + [Progress(GetFileName(paths[i]), i + 1, |paths|)]
  {
    var reports := ProgressReports(paths);
    assert reports[i] == Progress(GetFileName(paths[i]), i + 1, |paths|);
    assert reports[..i + 1] == reports[..i] + [reports[i]];
  }
}

/**
 * The host editor and the file system, as the core sees them. Nothing here is
 * computed by the plugin: each field is an engine or .NET call whose result the
 * model takes as given.
 */
module Engine {
  import opened Wrappers

  type Bytes = seq<bv8>

  /** The project's files on disk, by path. File.ReadAllBytes throws for a path not in the map. */
  type Files = map<string, Bytes>

  /** A loaded Texture2D: its size and its GetPixels() buffer, row by row. */
  datatype Texture<P> = Texture(width: nat, height: nat, pixels: seq<P>)

  /** What LoadImage produces: a non-empty image whose buffer has one entry per pixel. */
  predicate WellFormed<P>(t: Texture<P>)
  {
    t.width >= 1 && t.height >= 1 && |t.pixels| == t.width * t.height
  }

  /** The encoders Texture2D offers: EncodeToPNG, EncodeToJPG, EncodeToTGA, EncodeToEXR. */
  datatype Format = Png | Jpg | Tga | Exr

  datatype Host<!P> = Host(
    /** Texture2D.LoadImage on the file's bytes; None when it returns false. */
    decode: Bytes -> Option<Texture<P>>,
    /** Whether the engine accepts a texture of this size (Reinitialize returns true, the constructor does not throw). */
    canResize: (nat, nat) -> bool,
    /** The bytes an encoder produces for a texture; None when it returns null. */
    encode: (Format, Texture<P>) -> Option<Bytes>,
    /** Whether File.WriteAllBytes to this path completes without throwing. */
    canWrite: string -> bool,
    /** TextureImporter.maxTextureSize of the asset, None when AssetImporter.GetAtPath gives no TextureImporter. */
    importerMaxSize: string -> Option<nat>,
    /** Whether an engine call made while analysing this file throws. */
    analysisRaises: string -> bool,
    /** Directory.Exists. */
    directoryExists: string -> bool,
    /** Directory.GetFiles(folder, pattern, recursive ? AllDirectories : TopDirectoryOnly). */
    listFiles: (string, string, bool) -> seq<string>)
  {
    /**
     * The decoder only ever yields well-formed textures, and the engine refuses a texture
     * with a side of 0 (Reinitialize returns false, the constructor throws).
     */
    ghost predicate Valid()
    {
      && (forall b :: decode(b).Some? ==> WellFormed(decode(b).value))
      && (forall w, h :: canResize(w, h) ==> w >= 1 && h >= 1)
    }
  }

  /** What loading a texture file gives: File.ReadAllBytes threw, LoadImage refused the bytes, or a texture. */
  datatype Load<P> = ReadThrew | NotAnImage | Loaded(texture: Texture<P>)

  /**
   * LoadTextureFromFile: read the file's bytes and decode them. Every core file has its own
   * copy of this helper, and all copies do the same.
   */
  function LoadTextureFromFile<P>(host: Host<P>, files: Files, path: string): (r: Load<P>)
    ensures r.ReadThrew? <==> path !in files
    ensures r.Loaded? <==> path in files && host.decode(files[path]).Some?
    ensures r.Loaded? && host.Valid() ==> WellFormed(r.texture)
  {
    if path !in files then ReadThrew
    else match host.decode(files[path])
      case None => NotAnImage
      case Some(texture) => Loaded(texture)
  }

  /** How a call that modifies one texture file ended. */
  datatype Status =
    | SameSizeRequested   // the sizes passed in already agree: returns before loading
    | ReadFailed          // File.ReadAllBytes threw
    | NotDecoded          // LoadImage returned false
    | AlreadyAtTarget     // the loaded texture already has the target size
    | ReinitializeFailed  // the engine refused a texture of the target size
    | EncodeUnsupported   // no encoder for the file's extension: nothing written
    | EncodeFailed        // the encoder returned null: nothing written
    | WriteFailed         // File.WriteAllBytes threw
    | Written             // the resized texture was encoded and written back

  /** A status together with the file system it leaves behind. */
  datatype Outcome = Outcome(status: Status, files: Files)

  /** One file to resize, to the given size. */
  datatype Job = Job(path: string, width: nat, height: nat)
}
