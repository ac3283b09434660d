/**
 * QuadProcessorContextMenu: the "Resize to be Quad-Divisible" asset menu item. The
 * selection is split into textures that need resizing and textures already aligned;
 * after the user confirms, each planned texture goes through the utility's
 * ModifyTextureFile, an exception counting as a failure without stopping the loop.
 */
module QuadProcessorContextMenu {
  import opened Structs
  import opened Engine
  import opened DimensionMath
  import opened Processing
  import opened Scanning

  /** An entry of Selection.objects: whether it is a Texture2D, its name and its asset path. */
  datatype SelectedObject = SelectedObject(isTexture2D: bool, name: string, assetPath: string)

  /** IsValidTexture: a Texture2D whose lower-cased extension is .png, .jpg or .jpeg. */
  predicate IsValidTexture(obj: SelectedObject)
  {
    obj.isTexture2D && LoweredExtension(obj.assetPath) in {".png", ".jpg", ".jpeg"}
  }

  /** The accepted textures are exactly the Texture2D assets the utility has an encoder for. */
  lemma ValidTextureIsEncodable(obj: SelectedObject)
    ensures IsValidTexture(obj) <==> obj.isTexture2D && EncoderFor(LoweredExtension(obj.assetPath)).Some?
  {
  }

  /** ValidateProcessTexture: the menu item is enabled when some selected object is a valid texture. */
  function ValidateProcessTexture(selection: seq<SelectedObject>): (enabled: bool)
    ensures enabled <==> exists i :: 0 <= i < |selection| && IsValidTexture(selection[i])
    decreases |selection|
  {
    if |selection| == 0 then false
    else
      var rest := selection[1..];
      assert forall i :: 1 <= i < |selection| ==> selection[i] == rest[i - 1];
      IsValidTexture(selection[0]) || ValidateProcessTexture(rest)
  }

  /** The number of selected objects a filter accepts. */
  function ValidCount(accepts: SelectedObject -> bool, selection: seq<SelectedObject>): (n: nat)
    ensures n <= |selection|
    ensures n == 0 <==> forall i :: 0 <= i < |selection| ==> !accepts(selection[i])
    decreases |selection|
  {
    if |selection| == 0 then 0
    else
      var before := selection[..|selection| - 1];
      assert forall i :: 0 <= i < |selection| - 1 ==> before[i] == selection[i];
      ValidCount(accepts, before) + (if accepts(selection[|selection| - 1]) then 1 else 0)
  }

  /** One entry of validTextures: the texture (by name), its path, its size and the size to resize to. */
  datatype PlannedResize = PlannedResize(name: string, path: string, info: TextureInfo, newWidth: nat, newHeight: nat)

  /** The size GetTextureInfo reports for each selected object, in selection order. */
  function InfosOf<P>(host: Host<P>, files: Files, selection: seq<SelectedObject>): (infos: seq<TextureInfo>)
    requires host.Valid()
    ensures |infos| == |selection|
    ensures forall i :: 0 <= i < |selection| ==> infos[i] == GetTextureInfo(host, files, selection[i].assetPath)
  {
    seq(|selection|, i requires 0 <= i < |selection| => GetTextureInfo(host, files, selection[i].assetPath))
  }

  /** The validTextures entry of a selected texture: each side rounded up to a multiple of four. */
  function PlanFor(obj: SelectedObject, info: TextureInfo): (entry: PlannedResize)
    ensures entry.name == obj.name && entry.path == obj.assetPath && entry.info == info
    ensures AreDimensionsDivisibleByFour(entry.newWidth, entry.newHeight)
    ensures info.Width <= entry.newWidth < info.Width + 4
    ensures info.Height <= entry.newHeight < info.Height + 4
    ensures !AreDimensionsDivisibleByFour(info.Width, info.Height) ==>
      entry.newWidth != info.Width || entry.newHeight != info.Height
  {
    PlannedResize(obj.name, obj.assetPath, info, CalculateDivisibleByFour(info.Width), CalculateDivisibleByFour(info.Height))
  }

  /**
   * The two lists the selection loop builds from the objects and their sizes: validTextures
   * and alreadyDivisible, in selection order, over the objects the filter accepts.
   */
  function PlanOf(accepts: SelectedObject -> bool, selection: seq<SelectedObject>, infos: seq<TextureInfo>)
    : (plan: (seq<PlannedResize>, seq<string>))
    requires |infos| == |selection|
    ensures |plan.0| + |plan.1| <= |selection|
    decreases |selection|
  {
    if |selection| == 0 then ([], [])
    else
      var n := |selection| - 1;
      var before := PlanOf(accepts, selection[..n], infos[..n]);
      var obj, info := selection[n], infos[n];
      if !accepts(obj) then before
      else if AreDimensionsDivisibleByFour(info.Width, info.Height) then (before.0, before.1 + [obj.name])
      else (before.0 + [PlanFor(obj, info)], before.1)
  }

  /** Classifying one more object extends the plan by that object's entry or name, or not at all. */
  lemma PlanOfStep(accepts: SelectedObject -> bool, selection: seq<SelectedObject>, infos: seq<TextureInfo>, i: nat)
    requires |infos| == |selection| && i < |selection|
    ensures var before := PlanOf(accepts, selection[..i], infos[..i]);
      PlanOf(accepts, selection[..i + 1], infos[..i + 1]) ==
        if !accepts(selection[i]) then before
        else if AreDimensionsDivisibleByFour(infos[i].Width, infos[i].Height) then (before.0, before.1 + [selection[i].name])
        else (before.0 + [PlanFor(selection[i], infos[i])], before.1)
  {
    assert selection[..i + 1][..i] == selection[..i] && infos[..i + 1][..i] == infos[..i];
  }

  /** The plan of a selection, with each object's size read through GetTextureInfo. */
  function SelectionPlan<P>(host: Host<P>, files: Files, selection: seq<SelectedObject>)
    : (plan: (seq<PlannedResize>, seq<string>))
    requires host.Valid()
  {
    PlanOf(IsValidTexture, selection, InfosOf(host, files, selection))
  }

  /** Every valid selected texture is listed once: the two lists together are as long as the valid ones. */
  lemma {:induction false} PlanCounts(accepts: SelectedObject -> bool, selection: seq<SelectedObject>, infos: seq<TextureInfo>)
    requires |infos| == |selection|
    ensures |PlanOf(accepts, selection, infos).0| + |PlanOf(accepts, selection, infos).1| == ValidCount(accepts, selection)
    decreases |selection|
  {
    if |selection| > 0 {
      var n := |selection| - 1;
      PlanCounts(accepts, selection[..n], infos[..n]);
    }
  }

  /**
   * A valid selected texture is in validTextures when its size is not quad-aligned, and
   * its name is in alreadyDivisible when it is.
   */
  lemma {:induction false} PlanComplete(accepts: SelectedObject -> bool, selection: seq<SelectedObject>, infos: seq<TextureInfo>)
    requires |infos| == |selection|
    ensures forall i :: (0 <= i < |selection| && accepts(selection[i])
      && !AreDimensionsDivisibleByFour(infos[i].Width, infos[i].Height)) ==>
      PlanFor(selection[i], infos[i]) in PlanOf(accepts, selection, infos).0
    ensures forall i :: (0 <= i < |selection| && accepts(selection[i])
      && AreDimensionsDivisibleByFour(infos[i].Width, infos[i].Height)) ==>
      selection[i].name in PlanOf(accepts, selection, infos).1
    decreases |selection|
  {
    if |selection| > 0 {
      var n := |selection| - 1;
      PlanComplete(accepts, selection[..n], infos[..n]);
      assert forall i :: 0 <= i < n ==> selection[..n][i] == selection[i] && infos[..n][i] == infos[i];
    }
  }

  /** The entry is the plan of some accepted object of the selection whose size is not quad-aligned. */
  predicate PlannedFrom(accepts: SelectedObject -> bool, selection: seq<SelectedObject>, infos: seq<TextureInfo>,
                        entry: PlannedResize)
    requires |infos| == |selection|
  {
    exists i :: 0 <= i < |selection| && accepts(selection[i])
      && !AreDimensionsDivisibleByFour(infos[i].Width, infos[i].Height)
      && entry == PlanFor(selection[i], infos[i])
  }

  /** validTextures lists nothing but the entries of selected textures that need resizing. */
  lemma {:induction false} PlanSound(accepts: SelectedObject -> bool, selection: seq<SelectedObject>, infos: seq<TextureInfo>)
    requires |infos| == |selection|
    ensures forall k :: 0 <= k < |PlanOf(accepts, selection, infos).0| ==>
      PlannedFrom(accepts, selection, infos, PlanOf(accepts, selection, infos).0[k])
    decreases |selection|
  {
    if |selection| > 0 {
      var n := |selection| - 1;
      var prefix, prefixInfos := selection[..n], infos[..n];
      PlanSound(accepts, prefix, prefixInfos);
      var before := PlanOf(accepts, prefix, prefixInfos);
      var plan := PlanOf(accepts, selection, infos);
      forall k | 0 <= k < |plan.0|
        ensures PlannedFrom(accepts, selection, infos, plan.0[k])
      {
        if k < |before.0| {
          assert plan.0[k] == before.0[k];
          assert PlannedFrom(accepts, prefix, prefixInfos, before.0[k]);
          var i :| 0 <= i < n && accepts(prefix[i]) && !AreDimensionsDivisibleByFour(prefixInfos[i].Width, prefixInfos[i].Height)
            && before.0[k] == PlanFor(prefix[i], prefixInfos[i]);
          assert prefix[i] == selection[i] && prefixInfos[i] == infos[i];
        } else {
          assert plan.0[k] == PlanFor(selection[n], infos[n]);
        }
      }
    }
  }

  /**
   * The partition of a selection: the "No Valid Textures" case arises exactly when the menu
   * item would be disabled; each valid texture is listed by its GetTextureInfo size, in
   * alreadyDivisible or in validTextures; and validTextures holds nothing else.
   */
  lemma SelectionPartition<P>(host: Host<P>, files: Files, selection: seq<SelectedObject>)
    requires host.Valid()
    ensures var plan := SelectionPlan(host, files, selection);
      |plan.0| + |plan.1| == 0 <==> !ValidateProcessTexture(selection)
    ensures var plan := SelectionPlan(host, files, selection);
      forall i :: 0 <= i < |selection| && IsValidTexture(selection[i]) ==>
        var info := GetTextureInfo(host, files, selection[i].assetPath);
        if AreDimensionsDivisibleByFour(info.Width, info.Height) then selection[i].name in plan.1
        else PlanFor(selection[i], info) in plan.0
    ensures var plan := SelectionPlan(host, files, selection);
      forall k :: 0 <= k < |plan.0| ==> PlannedFrom(IsValidTexture, selection, InfosOf(host, files, selection), plan.0[k])
  {
    var infos := InfosOf(host, files, selection);
    PlanCounts(IsValidTexture, selection, infos);
    PlanComplete(IsValidTexture, selection, infos);
    PlanSound(IsValidTexture, selection, infos);
  }

  /** A valid texture that cannot be read or decoded has size 0 x 0 and is reported as already divisible. */
  lemma UnreadableCountsAsAligned<P>(host: Host<P>, files: Files, obj: SelectedObject)
    requires host.Valid() && IsValidTexture(obj)
    requires !LoadTextureFromFile(host, files, obj.assetPath).Loaded?
    ensures var info := GetTextureInfo(host, files, obj.assetPath);
      info == TextureInfo(0, 0) && AreDimensionsDivisibleByFour(info.Width, info.Height)
  {
  }

  /** The selection loop, proved to build the two lists SelectionPlan describes. */
  method PartitionSelection<P>(host: Host<P>, files: Files, selection: seq<SelectedObject>)
    returns (validTextures: seq<PlannedResize>, alreadyDivisible: seq<string>)
    requires host.Valid()
    ensures (validTextures, alreadyDivisible) == SelectionPlan(host, files, selection)
  {
    ghost var infos := InfosOf(host, files, selection);
    validTextures, alreadyDivisible := [], [];
    for i := 0 to |selection|
      invariant (validTextures, alreadyDivisible) == PlanOf(IsValidTexture, selection[..i], infos[..i])
    {
      PlanOfStep(IsValidTexture, selection, infos, i);
      var obj := selection[i];
      if !IsValidTexture(obj) {
        continue;
      }
      var path := obj.assetPath;
      var textureInfo := GetTextureInfo(host, files, path);
      assert textureInfo == infos[i];
      if AreDimensionsDivisibleByFour(textureInfo.Width, textureInfo.Height) {
        alreadyDivisible := alreadyDivisible + [obj.name];
        continue;
      }
      var newWidth := CalculateDivisibleByFour(textureInfo.Width);
      var newHeight := CalculateDivisibleByFour(textureInfo.Height);
      validTextures := validTextures + [PlannedResize(obj.name, path, textureInfo, newWidth, newHeight)];
    }
    assert selection[..|selection|] == selection && infos[..|selection|] == infos;
  }

  /** The ModifyTextureFile call of each planned texture, in plan order. */
  function JobsOf(plan: seq<PlannedResize>): (jobs: seq<Job>)
    ensures |jobs| == |plan|
    ensures forall k :: 0 <= k < |plan| ==> jobs[k] == Job(plan[k].path, plan[k].newWidth, plan[k].newHeight)
  {
    seq(|plan|, k requires 0 <= k < |plan| => Job(plan[k].path, plan[k].newWidth, plan[k].newHeight))
  }

  /** One DisplayProgressBar call: the texture's name, its 1-based position, the count and the bar's fraction. */
  datatype MenuProgress = MenuProgress(name: string, current: nat, total: nat, fraction: real)

  /** The progress bar shown before each planned texture: i + 1 of Count, filled to (float)i / Count. */
  function MenuReports(plan: seq<PlannedResize>): (reports: seq<MenuProgress>)
    ensures |reports| == |plan|
    ensures forall k :: 0 <= k < |plan| ==>
      reports[k] == MenuProgress(plan[k].name, k + 1, |plan|, k as real / |plan| as real)
  {
    seq(|plan|, k requires 0 <= k < |plan| => MenuProgress(plan[k].name, k + 1, |plan|, k as real / |plan| as real))
  }

  /** The first i + 1 bars are the first i followed by the bar of entry i. */
  lemma MenuReportsPrefix(plan: seq<PlannedResize>, i: nat)
    requires i < |plan|
    ensures MenuReports(plan)[..i + 1]
      == MenuReports(plan)[..i] + [MenuProgress(plan[i].name, i + 1, |plan|, i as real / |plan| as real)]
  {
    var reports := MenuReports(plan);
    assert reports[..i + 1] == reports[..i] + [reports[i]];
  }

  /** The bar's fraction lies in [0, 1), scales back to the index, and grows with it. */
  lemma ProgressFraction(i: nat, j: nat, count: nat)
    requires i < j < count
    ensures 0.0 <= i as real / count as real < 1.0
    ensures (i as real / count as real) * count as real == i as real
    ensures i as real / count as real < j as real / count as real
  {
    assert j as real / count as real - i as real / count as real == (j - i) as real / count as real;
  }

  /** The progress bar of one loop pass: the bars so far followed by the bar of entry i. */
  method ShowProgress(validTextures: seq<PlannedResize>, i: nat, progress: seq<MenuProgress>)
    returns (progress': seq<MenuProgress>)
    requires i < |validTextures| && progress == MenuReports(validTextures)[..i]
    ensures progress' == MenuReports(validTextures)[..i + 1]
  {
    var entry := validTextures[i];
    MenuReportsPrefix(validTextures, i);
    progress' := progress + [MenuProgress(entry.name, i + 1, |validTextures|, i as real / |validTextures| as real)];
  }

  /**
   * One pass of the processing loop: the utility's ModifyTextureFile on entry i, as the next
   * job of the run, counted as processed or, when it raised, as failed.
   */
  method RunPlanStep<P(0)>(host: Host<P>, ghost files: Files, validTextures: seq<PlannedResize>, i: nat,
                           ghost statuses: seq<Status>, current: Files, processed: nat, failed: nat)
    returns (status: Status, newFiles: Files, processed': nat, failed': nat)
    requires host.Valid() && i < |validTextures|
    requires (statuses, current) == RunJobs(host, files, JobsOf(validTextures)[..i])
    requires processed == Tally(statuses).Succeeded && failed == Tally(statuses).Failed
    ensures (statuses + [status], newFiles) == RunJobs(host, files, JobsOf(validTextures)[..i + 1])
    ensures processed' == Tally(statuses + [status]).Succeeded && failed' == Tally(statuses + [status]).Failed
  {
    var entry := validTextures[i];
    var outcome := Processing.ModifyTextureFile(host, current, entry.path, entry.info.Width, entry.info.Height,
                                                entry.newWidth, entry.newHeight);
    RunJobsStep(host, files, JobsOf(validTextures), i, statuses, current, outcome);
    TallyStep(statuses, outcome.status);
    status := outcome.status;
    newFiles := outcome.files;
    if Raises(outcome.status) {
      processed', failed' := processed, failed + 1;
    } else {
      processed', failed' := processed + 1, failed;
    }
  }

  /**
   * The processing loop: each planned texture in order, ModifyTextureFile on its path and new
   * size, an exception counted as a failure and the loop going on; the bar is shown before each.
   */
  method RunPlan<P(0)>(host: Host<P>, files: Files, validTextures: seq<PlannedResize>)
    returns (processed: nat, failed: nat, progress: seq<MenuProgress>, newFiles: Files)
    requires host.Valid()
    ensures var run := RunJobs(host, files, JobsOf(validTextures));
      newFiles == run.1 && processed == Tally(run.0).Succeeded && failed == Tally(run.0).Failed
    ensures processed + failed == |validTextures|
    ensures progress == MenuReports(validTextures)
  {
    newFiles := files;
    progress := [];
    processed, failed := 0, 0;
    ghost var jobs := JobsOf(validTextures);
    ghost var reports := MenuReports(validTextures);
    ghost var statuses: seq<Status> := [];
    for i := 0 to |validTextures|
      invariant (statuses, newFiles) == RunJobs(host, files, jobs[..i])
      invariant processed == Tally(statuses).Succeeded && failed == Tally(statuses).Failed
      invariant progress == reports[..i]
    {
      progress := ShowProgress(validTextures, i, progress);
      var status;
      status, newFiles, processed, failed := RunPlanStep(host, files, validTextures, i, statuses, newFiles, processed, failed);
      statuses := statuses + [status];
    }
    assert jobs[..|validTextures|] == jobs;
    assert reports[..|validTextures|] == reports;
  }

  /** The dialog the menu item ends with. */
  datatype MenuResult =
    | NoProcessingNeeded(alreadyDivisible: seq<string>)  // no texture to resize, some already aligned
    | NoValidTextures                                     // no valid texture in the selection
    | Cancelled                                           // the confirmation dialog was declined
    | Completed(processed: nat, failed: nat)              // the processing loop ran

  /**
   * ProcessTextures (the menu item). proceed is the answer to the confirmation dialog.
   * Without a planned texture or without confirmation no file changes; otherwise the
   * planned textures are modified in order, and the counters add up to the plan's length.
   */
  method ProcessTextures<P(0)>(host: Host<P>, files: Files, selection: seq<SelectedObject>, proceed: bool)
    returns (result: MenuResult, progress: seq<MenuProgress>, newFiles: Files)
    requires host.Valid()
    ensures var plan := SelectionPlan(host, files, selection);
      |plan.0| == 0 ==>
        && newFiles == files && progress == []
        && result == (if |plan.1| > 0 then NoProcessingNeeded(plan.1) else NoValidTextures)
    ensures var plan := SelectionPlan(host, files, selection);
      |plan.0| > 0 && !proceed ==> result == Cancelled && newFiles == files && progress == []
    ensures var plan := SelectionPlan(host, files, selection);
      |plan.0| > 0 && proceed ==>
        var run := RunJobs(host, files, JobsOf(plan.0));
        && newFiles == run.1
        && result == Completed(Tally(run.0).Succeeded, Tally(run.0).Failed)
        && result.processed + result.failed == |plan.0|
        && progress == MenuReports(plan.0)
  {
    var validTextures, alreadyDivisible := PartitionSelection(host, files, selection);
    newFiles := files;
    progress := [];
    if |validTextures| == 0 {
      if |alreadyDivisible| > 0 {
        result := NoProcessingNeeded(alreadyDivisible);
      } else {
        result := NoValidTextures;
      }
      return;
    }
    if !proceed {
      result := Cancelled;
      return;
    }
    var processed, failed;
    processed, failed, progress, newFiles := RunPlan(host, files, validTextures);
    result := Completed(processed, failed);
  }
}
