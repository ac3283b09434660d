/**
 * The processing half of QuadProcessorUtility: resizing one texture file in place
 * (ModifyTextureFileDirectly and its helpers) and the batch loop ProcessTextures
 * with its Total / Succeeded / Failed counters.
 */
module Processing {
  import opened Wrappers
  import opened PathText
  import opened Structs
  import opened Engine
  import opened Resampler

  /** EncodeTexture: the encoder for a lower-cased extension; None for a format it does not write. */
  function EncoderFor(fileExtension: string): (format: Option<Format>)
    ensures format.Some? <==> fileExtension == ".png" || fileExtension == ".jpg" || fileExtension == ".jpeg"
    ensures format.Some? ==> (format.value == Png <==> fileExtension == ".png")
    ensures format.Some? ==> format.value == Png || format.value == Jpg
  {
    if fileExtension == ".png" then Some(Png)
    else if fileExtension == ".jpg" || fileExtension == ".jpeg" then Some(Jpg)
    else None
  }

  /** Path.GetExtension(assetPath).ToLower(), the key of every EncodeTexture dispatch. */
  function LoweredExtension(path: string): string
  {
    ToLower(GetExtension(path))
  }

  /** The texture that Reinitialize followed by ResamplePixels leaves behind. */
  function Resized<P>(texture: Texture<P>, currentWidth: nat, currentHeight: nat, newWidth: nat, newHeight: nat): (r: Texture<P>)
    requires currentWidth >= 1 && currentHeight >= 1 && |texture.pixels| == currentWidth * currentHeight
    ensures r.width == newWidth && r.height == newHeight
    ensures newWidth >= 1 && newHeight >= 1 ==> WellFormed(r)
  {
    Texture(newWidth, newHeight, Resample(texture.pixels, currentWidth, currentHeight, newWidth, newHeight))
  }

  /**
   * ResizeTexture: Reinitialize to the new size, then resample the pixels read before it.
   * None stands for Reinitialize returning false, which leaves the pixels unset.
   */
  method ResizeTexture<P(0)>(host: Host<P>, texture: Texture<P>, currentWidth: nat, currentHeight: nat,
                             newWidth: nat, newHeight: nat)
    returns (resized: Option<Texture<P>>)
    requires currentWidth >= 1 && currentHeight >= 1 && |texture.pixels| == currentWidth * currentHeight
    ensures resized.Some? <==> host.canResize(newWidth, newHeight)
    ensures resized.Some? ==> resized.value == Resized(texture, currentWidth, currentHeight, newWidth, newHeight)
  {
    var originalPixels := texture.pixels;
    if !host.canResize(newWidth, newHeight) {
      return None;
    }
    var newPixels := ResamplePixels(originalPixels, currentWidth, currentHeight, newWidth, newHeight);
    resized := Some(Texture(newWidth, newHeight, newPixels));
  }

  /**
   * SaveTextureToFile: encode by the file's extension and write the bytes back.
   * EncodeUnsupported and EncodeFailed are the two false returns (no encoder, or an
   * encoder that returned null); WriteFailed is File.WriteAllBytes throwing.
   */
  function SaveTextureToFile<P>(host: Host<P>, files: Files, texture: Texture<P>, assetPath: string): (o: Outcome)
    ensures o.status in {EncodeUnsupported, EncodeFailed, WriteFailed, Written}
    ensures o.status == EncodeUnsupported <==> EncoderFor(LoweredExtension(assetPath)).None?
    ensures o.status == EncodeFailed <==>
      EncoderFor(LoweredExtension(assetPath)).Some? && host.encode(EncoderFor(LoweredExtension(assetPath)).value, texture).None?
    ensures o.status == Written <==>
      && EncoderFor(LoweredExtension(assetPath)).Some?
      && host.encode(EncoderFor(LoweredExtension(assetPath)).value, texture).Some?
      && host.canWrite(assetPath)
    ensures o.status != Written ==> o.files == files
    ensures o.status == Written ==>
      o.files == files[assetPath := host.encode(EncoderFor(LoweredExtension(assetPath)).value, texture).value]
  {
    match EncoderFor(LoweredExtension(assetPath))
    case None => Outcome(EncodeUnsupported, files)
    case Some(format) =>
      match host.encode(format, texture)
      case None => Outcome(EncodeFailed, files)
      case Some(newBytes) =>
        if !host.canWrite(assetPath) then Outcome(WriteFailed, files)
        else Outcome(Written, files[assetPath := newBytes])
  }

  /** The file loads, and its texture has another size than the target. */
  predicate LoadsOtherSize<P>(host: Host<P>, files: Files, assetPath: string, width: nat, height: nat)
  {
    LoadTextureFromFile(host, files, assetPath).Loaded? &&
    (LoadTextureFromFile(host, files, assetPath).texture.width,
     LoadTextureFromFile(host, files, assetPath).texture.height) != (width, height)
  }

  /** The loaded texture after Reinitialize and ResamplePixels to the given size. */
  function ResizedFile<P>(host: Host<P>, files: Files, assetPath: string, width: nat, height: nat): Texture<P>
    requires host.Valid() && LoadTextureFromFile(host, files, assetPath).Loaded?
  {
    var texture := LoadTextureFromFile(host, files, assetPath).texture;
    Resized(texture, texture.width, texture.height, width, height)
  }

  /** The extension has an encoder, and that encoder gives bytes (does not return null) for the texture. */
  predicate EncodesWith<P>(host: Host<P>, format: Option<Format>, texture: Texture<P>)
  {
    format.Some? && host.encode(format.value, texture).Some?
  }

  /**
   * What ModifyTextureFileDirectly does to one file: load it, stop if it already has the
   * target size, otherwise resize, encode and write it back. Each status is tied to the
   * inputs that produce it.
   */
  function DirectModification<P>(host: Host<P>, files: Files, assetPath: string,
                                 targetWidth: nat, targetHeight: nat): (o: Outcome)
    requires host.Valid()
    ensures o.status != SameSizeRequested
    ensures o.status == ReadFailed <==> assetPath !in files
    ensures o.status == NotDecoded <==> LoadTextureFromFile(host, files, assetPath).NotAnImage?
    ensures o.status == AlreadyAtTarget <==>
      (LoadTextureFromFile(host, files, assetPath).Loaded? &&
       LoadTextureFromFile(host, files, assetPath).texture.width == targetWidth &&
       LoadTextureFromFile(host, files, assetPath).texture.height == targetHeight)
    ensures o.status == ReinitializeFailed <==>
      LoadsOtherSize(host, files, assetPath, targetWidth, targetHeight) && !host.canResize(targetWidth, targetHeight)
    ensures o.status == EncodeUnsupported <==>
      && LoadsOtherSize(host, files, assetPath, targetWidth, targetHeight) && host.canResize(targetWidth, targetHeight)
      && EncoderFor(LoweredExtension(assetPath)).None?
    ensures o.status == EncodeFailed <==>
      && LoadsOtherSize(host, files, assetPath, targetWidth, targetHeight) && host.canResize(targetWidth, targetHeight)
      && EncoderFor(LoweredExtension(assetPath)).Some?
      && !EncodesWith(host, EncoderFor(LoweredExtension(assetPath)), ResizedFile(host, files, assetPath, targetWidth, targetHeight))
    ensures o.status == WriteFailed <==>
      && LoadsOtherSize(host, files, assetPath, targetWidth, targetHeight) && host.canResize(targetWidth, targetHeight)
      && EncodesWith(host, EncoderFor(LoweredExtension(assetPath)), ResizedFile(host, files, assetPath, targetWidth, targetHeight))
      && !host.canWrite(assetPath)
    ensures o.status == Written <==>
      && LoadsOtherSize(host, files, assetPath, targetWidth, targetHeight) && host.canResize(targetWidth, targetHeight)
      && EncodesWith(host, EncoderFor(LoweredExtension(assetPath)), ResizedFile(host, files, assetPath, targetWidth, targetHeight))
      && host.canWrite(assetPath)
    ensures o.status != Written ==> o.files == files
  {
    match LoadTextureFromFile(host, files, assetPath)
    case ReadThrew => Outcome(ReadFailed, files)
    case NotAnImage => Outcome(NotDecoded, files)
    case Loaded(texture) =>
      if texture.width == targetWidth && texture.height == targetHeight then Outcome(AlreadyAtTarget, files)
      else if !host.canResize(targetWidth, targetHeight) then Outcome(ReinitializeFailed, files)
      else SaveTextureToFile(host, files, Resized(texture, texture.width, texture.height, targetWidth, targetHeight), assetPath)
  }

  /** Modifying one file adds and removes no file and leaves every other file as it was. */
  lemma DirectModificationFrame<P>(host: Host<P>, files: Files, assetPath: string, targetWidth: nat, targetHeight: nat)
    requires host.Valid()
    ensures var o := DirectModification(host, files, assetPath, targetWidth, targetHeight);
      o.files.Keys == files.Keys && forall p :: p in files && p != assetPath ==> o.files[p] == files[p]
  {
    var o := DirectModification(host, files, assetPath, targetWidth, targetHeight);
    if o.status == Written {
      var resized := ResizedFile(host, files, assetPath, targetWidth, targetHeight);
      assert o == SaveTextureToFile(host, files, resized, assetPath);
    }
  }

  /** When the file is written, it holds the encoded resample of what was loaded, at the target size. */
  lemma DirectModificationWrites<P>(host: Host<P>, files: Files, assetPath: string, targetWidth: nat, targetHeight: nat)
    requires host.Valid()
    ensures var o := DirectModification(host, files, assetPath, targetWidth, targetHeight);
      o.status == Written ==>
        var texture := LoadTextureFromFile(host, files, assetPath).texture;
        && LoadTextureFromFile(host, files, assetPath).Loaded?
        && (texture.width, texture.height) != (targetWidth, targetHeight)
        && host.encode(EncoderFor(LoweredExtension(assetPath)).value,
             Resized(texture, texture.width, texture.height, targetWidth, targetHeight)) == Some(o.files[assetPath])
  {
  }

  /** Whether ModifyTextureFileDirectly ends by throwing (it logs and rethrows). */
  predicate Raises(status: Status)
  {
    status == ReadFailed || status == WriteFailed
  }

  /**
   * A file that does not decode, a file already at the target size, an engine that refuses
   * the new size, an extension with no encoder and an encoder that returns null all end
   * without writing and without an exception, so the batch loop counts each as one success.
   */
  lemma QuietFailures<P>(host: Host<P>, files: Files, assetPath: string, targetWidth: nat, targetHeight: nat)
    requires host.Valid()
    ensures var o := DirectModification(host, files, assetPath, targetWidth, targetHeight);
      var loaded := LoadTextureFromFile(host, files, assetPath);
      (|| loaded.NotAnImage?
       || (loaded.Loaded? && loaded.texture.width == targetWidth && loaded.texture.height == targetHeight)
       || (LoadsOtherSize(host, files, assetPath, targetWidth, targetHeight) && !host.canResize(targetWidth, targetHeight))
       || (&& LoadsOtherSize(host, files, assetPath, targetWidth, targetHeight) && host.canResize(targetWidth, targetHeight)
           && !EncodesWith(host, EncoderFor(LoweredExtension(assetPath)), ResizedFile(host, files, assetPath, targetWidth, targetHeight))))
      ==> !Raises(o.status) && o.files == files && Tally([o.status]) == ProcessingResult(1, 1, 0)
  {
    var o := DirectModification(host, files, assetPath, targetWidth, targetHeight);
    assert [o.status][..0] == [];
  }

  /**
   * Only a missing file and a write that throws reach the caller as an exception, and the
   * batch loop counts such an item as one failure.
   */
  lemma RaisingFailures<P>(host: Host<P>, files: Files, assetPath: string, targetWidth: nat, targetHeight: nat)
    requires host.Valid()
    ensures var o := DirectModification(host, files, assetPath, targetWidth, targetHeight);
      Raises(o.status) <==>
        || assetPath !in files
        || (&& LoadsOtherSize(host, files, assetPath, targetWidth, targetHeight) && host.canResize(targetWidth, targetHeight)
            && EncodesWith(host, EncoderFor(LoweredExtension(assetPath)), ResizedFile(host, files, assetPath, targetWidth, targetHeight))
            && !host.canWrite(assetPath))
    ensures var o := DirectModification(host, files, assetPath, targetWidth, targetHeight);
      Raises(o.status) ==> o.files == files && Tally([o.status]) == ProcessingResult(1, 0, 1)
  {
    var o := DirectModification(host, files, assetPath, targetWidth, targetHeight);
    assert [o.status][..0] == [];
  }

  /** ModifyTextureFileDirectly, proved to do what DirectModification describes. */
  method ModifyTextureFileDirectly<P(0)>(host: Host<P>, files: Files, assetPath: string,
                                         targetWidth: nat, targetHeight: nat)
    returns (outcome: Outcome)
    requires host.Valid()
    ensures outcome == DirectModification(host, files, assetPath, targetWidth, targetHeight)
  {
    var loaded := LoadTextureFromFile(host, files, assetPath);
    if loaded.ReadThrew? {
      return Outcome(ReadFailed, files);
    }
    if loaded.NotAnImage? {
      return Outcome(NotDecoded, files);
    }
    var texture := loaded.texture;
    var currentWidth, currentHeight := texture.width, texture.height;
    if currentWidth == targetWidth && currentHeight == targetHeight {
      return Outcome(AlreadyAtTarget, files);
    }
    var resized := ResizeTexture(host, texture, currentWidth, currentHeight, targetWidth, targetHeight);
    if resized.None? {
      return Outcome(ReinitializeFailed, files);
    }
    outcome := SaveTextureToFile(host, files, resized.value, assetPath);
  }

  /** The legacy ModifyTextureFile: the current size it is given plays no part. */
  method ModifyTextureFile<P(0)>(host: Host<P>, files: Files, assetPath: string,
                                 currentWidth: nat, currentHeight: nat, newWidth: nat, newHeight: nat)
    returns (outcome: Outcome)
    requires host.Valid()
    ensures outcome == DirectModification(host, files, assetPath, newWidth, newHeight)
  {
    outcome := ModifyTextureFileDirectly(host, files, assetPath, newWidth, newHeight);
  }

  /** The size ProcessSingleTexture resizes a scanned asset to. */
  function TargetOf(texture: TextureAsset, considerImporterMaxSize: bool): (job: Job)
    ensures job.path == texture.Path
    ensures considerImporterMaxSize ==> job.width == texture.NewSourceWidth && job.height == texture.NewSourceHeight
    ensures !considerImporterMaxSize ==> job.width == texture.NewWidth && job.height == texture.NewHeight
  {
    if considerImporterMaxSize then Job(texture.Path, texture.NewSourceWidth, texture.NewSourceHeight)
    else Job(texture.Path, texture.NewWidth, texture.NewHeight)
  }

  /** ProcessSingleTexture: ModifyTextureFileDirectly on the asset's path and target size. */
  method ProcessSingleTexture<P(0)>(host: Host<P>, files: Files, texture: TextureAsset, considerImporterMaxSize: bool)
    returns (outcome: Outcome)
    requires host.Valid()
    ensures var job := TargetOf(texture, considerImporterMaxSize);
      outcome == DirectModification(host, files, job.path, job.width, job.height)
  {
    if considerImporterMaxSize {
      outcome := ModifyTextureFileDirectly(host, files, texture.Path, texture.NewSourceWidth, texture.NewSourceHeight);
    } else {
      outcome := ModifyTextureFileDirectly(host, files, texture.Path, texture.NewWidth, texture.NewHeight);
    }
  }

  /** The job of every asset of a list, in order. */
  function TargetsOf(textures: seq<TextureAsset>, considerImporterMaxSize: bool): (jobs: seq<Job>)
    ensures |jobs| == |textures|
    ensures forall i :: 0 <= i < |textures| ==> jobs[i] == TargetOf(textures[i], considerImporterMaxSize)
  {
    seq(|textures|, i requires 0 <= i < |textures| => TargetOf(textures[i], considerImporterMaxSize))
  }

  /**
   * The jobs run one after another, in order: each sees the files the earlier ones left,
   * and every job runs whatever became of the earlier ones. The statuses are in job order.
   */
  function RunJobs<P>(host: Host<P>, files: Files, jobs: seq<Job>): (run: (seq<Status>, Files))
    requires host.Valid()
    ensures |run.0| == |jobs|
    decreases |jobs|
  {
    if |jobs| == 0 then ([], files)
    else
      var before := RunJobs(host, files, jobs[..|jobs| - 1]);
      var last := jobs[|jobs| - 1];
      var o := DirectModification(host, before.1, last.path, last.width, last.height);
      (before.0 + [o.status], o.files)
  }

  /** Running one more job of a list extends the run by that job's status and files. */
  lemma RunJobsStep<P>(host: Host<P>, files: Files, jobs: seq<Job>, i: nat,
                       statuses: seq<Status>, current: Files, o: Outcome)
    requires host.Valid() && i < |jobs|
    requires (statuses, current) == RunJobs(host, files, jobs[..i])
    requires o == DirectModification(host, current, jobs[i].path, jobs[i].width, jobs[i].height)
    ensures RunJobs(host, files, jobs[..i + 1]) == (statuses + [o.status], o.files)
  {
    assert jobs[..i + 1][..i] == jobs[..i];
  }

  /** A batch keeps the set of files, and leaves every file that no job names as it was. */
  lemma {:induction false} RunJobsFrame<P>(host: Host<P>, files: Files, jobs: seq<Job>)
    requires host.Valid()
    ensures RunJobs(host, files, jobs).1.Keys == files.Keys
    ensures forall p :: p in files && (forall j :: 0 <= j < |jobs| ==> jobs[j].path != p) ==>
      RunJobs(host, files, jobs).1[p] == files[p]
    decreases |jobs|
  {
    if |jobs| > 0 {
      var before := RunJobs(host, files, jobs[..|jobs| - 1]);
      var last := jobs[|jobs| - 1];
      RunJobsFrame(host, files, jobs[..|jobs| - 1]);
      DirectModificationFrame(host, before.1, last.path, last.width, last.height);
    }
  }

  /** The counters ProcessTextures ends with, from the statuses of its items. */
  function Tally(statuses: seq<Status>): (result: ProcessingResult)
    ensures result.Total == |statuses|
    ensures result.Succeeded + result.Failed == result.Total
    ensures result.Failed == 0 <==> forall i :: 0 <= i < |statuses| ==> !Raises(statuses[i])
    decreases |statuses|
  {
    if |statuses| == 0 then ProcessingResult(0, 0, 0)
    else
      var before := Tally(statuses[..|statuses| - 1]);
      assert forall i :: 0 <= i < |statuses| - 1 ==> statuses[..|statuses| - 1][i] == statuses[i];
      if Raises(statuses[|statuses| - 1]) then
        ProcessingResult(before.Total + 1, before.Succeeded, before.Failed + 1)
      else
        ProcessingResult(before.Total + 1, before.Succeeded + 1, before.Failed)
  }

  /** Counting one more status: the total grows by one, and so does exactly one of the other two counters. */
  lemma TallyStep(statuses: seq<Status>, status: Status)
    ensures var before := Tally(statuses);
      Tally(statuses + [status]) == if Raises(status)
        then ProcessingResult(before.Total + 1, before.Succeeded, before.Failed + 1)
        else ProcessingResult(before.Total + 1, before.Succeeded + 1, before.Failed)
  {
    assert (statuses + [status])[..|statuses|] == statuses;
  }

  /** The asset paths of a list, in order. */
  function PathsOf(textures: seq<TextureAsset>): (paths: seq<string>)
    ensures |paths| == |textures|
    ensures forall i :: 0 <= i < |textures| ==> paths[i] == textures[i].Path
  {
    seq(|textures|, i requires 0 <= i < |textures| => textures[i].Path)
  }

  /** One pass of ProcessTextures' loop: process item i and count it as a success or a failure. */
  method ProcessStep<P(0)>(host: Host<P>, files: Files, textures: seq<TextureAsset>, considerImporterMaxSize: bool,
                           i: nat, ghost statuses: seq<Status>, current: Files, result: ProcessingResult)
    returns (status: Status, newFiles: Files, result': ProcessingResult)
    requires host.Valid() && i < |textures|
    requires (statuses, current) == RunJobs(host, files, TargetsOf(textures, considerImporterMaxSize)[..i])
    requires result == Tally(statuses)
    ensures (statuses + [status], newFiles) == RunJobs(host, files, TargetsOf(textures, considerImporterMaxSize)[..i + 1])
    ensures result' == Tally(statuses + [status])
  {
    var texture := textures[i];
    result' := result.(Total := result.Total + 1);
    var outcome := ProcessSingleTexture(host, current, texture, considerImporterMaxSize);
    ghost var jobs := TargetsOf(textures, considerImporterMaxSize);
    assert jobs[i] == TargetOf(texture, considerImporterMaxSize);
    RunJobsStep(host, files, jobs, i, statuses, current, outcome);
    TallyStep(statuses, outcome.status);
    status, newFiles := outcome.status, outcome.files;
    if Raises(outcome.status) {
      result' := result'.(Failed := result'.Failed + 1);
    } else {
      result' := result'.(Succeeded := result'.Succeeded + 1);
    }
  }

  /**
   * ProcessTextures: every asset in list order, one ProcessSingleTexture each, an exception
   * counted as a failure and the loop going on; progress is reported before each item.
   */
  method ProcessTextures<P(0)>(host: Host<P>, files: Files, textures: seq<TextureAsset>, considerImporterMaxSize: bool)
    returns (result: ProcessingResult, progress: seq<Progress>, newFiles: Files)
    requires host.Valid()
    ensures var run := RunJobs(host, files, TargetsOf(textures, considerImporterMaxSize));
      result == Tally(run.0) && newFiles == run.1
    ensures result.Total == |textures| && result.Succeeded + result.Failed == result.Total
    ensures progress == ProgressReports(PathsOf(textures))
  {
    result := ProcessingResult(0, 0, 0);
    progress := [];
    newFiles := files;
    var totalCount := |textures|;
    ghost var jobs := TargetsOf(textures, considerImporterMaxSize);
    ghost var reports := ProgressReports(PathsOf(textures));
    ghost var statuses: seq<Status> := [];
    for i := 0 to |textures|
      invariant (statuses, newFiles) == RunJobs(host, files, jobs[..i])
      invariant result == Tally(statuses)
      invariant progress == reports[..i]
    {
      var texture := textures[i];
      var fileName := GetFileName(texture.Path);
      ghost var paths := PathsOf(textures);
      assert paths[i] == texture.Path && |paths| == totalCount;
      ProgressReportsPrefix(paths, i);
      progress := progress + [Progress(fileName, i + 1, totalCount)];
      var status;
      status, newFiles, result := ProcessStep(host, files, textures, considerImporterMaxSize, i, statuses, newFiles, result);
      statuses := statuses + [status];
    }
    assert jobs[..|textures|] == jobs;
    assert reports[..|textures|] == reports;
  }
}
