/**
 * The GPU policy of `GetGpuOverrides`: the job's request (UseSpecificGpu / GpuOverride),
 * the Worker's GPU affinity override and the default GPU 0, merged into the ordered
 * list of GPU indices the training process may use. GPUs per task is the constant 0
 * in the plugin, so the branches that depend on a positive value are not reachable
 * and are not part of this model.
 */
module GpuSelection {
  import opened Wrappers
  import opened Text
  import opened Sequences
  import opened PluginInfo

  const NoAffinityMessage := "The Worker does not have affinity for any of the GPUs specified in the job."
  const DefaultGpuWarning := "GPU affinity is enabled for Nuke but the Workers GPU affinity has not been set and no overrides have been set. Defaulting to GPU 0."

  function MismatchWarning(notFound: seq<string>): string {
    "The Worker is overriding its GPU affinity and the following GPUs do not match the Workers affinity so they will not be used: "
    + Join(notFound, ',')
  }

  /** The outcome of `GetGpuOverrides`: the list, the warnings logged, and a render failure if any. */
  datatype GpuDecision = GpuDecision(gpus: seq<string>, warnings: seq<string>, failure: Option<string>)

  /** `gpusSelectDevices`: the GpuOverride entry when UseSpecificGpu, otherwise "". */
  function RequestedDevices(info: PluginInfo): string {
    if info.useSpecificGpu.GetOr(false) then info.gpuOverride.GetOr("0") else ""
  }

  /** `[str(gpu) for gpu in GpuAffinity()]`. */
  function AffinityNames(affinity: seq<nat>): (names: seq<string>)
    ensures |names| == |affinity|
    ensures forall i :: 0 <= i < |affinity| ==> names[i] == NatToString(affinity[i])
  {
    seq(|affinity|, i requires 0 <= i < |affinity| => NatToString(affinity[i]))
  }

  function InAffinity(allowed: seq<string>): string -> bool {
    gpu => gpu in allowed
  }

  function NotInAffinity(allowed: seq<string>): string -> bool {
    gpu => gpu !in allowed
  }

  /** The requested GPUs the Worker has affinity for, in request order. */
  function Kept(requested: seq<string>, allowed: seq<string>): seq<string> {
    Filter(requested, InAffinity(allowed))
  }

  /** The requested GPUs the Worker has no affinity for, in request order. */
  function Dropped(requested: seq<string>, allowed: seq<string>): seq<string> {
    Filter(requested, NotInAffinity(allowed))
  }

  /** The `for gpu in gpus` loop of `GetGpuOverrides`, sorting each request into one of two lists. */
  method PartitionByAffinity(gpus: seq<string>, overrideGPUs: seq<string>)
    returns (resultGPUs: seq<string>, notFoundGPUs: seq<string>)
    ensures resultGPUs == Kept(gpus, overrideGPUs)
    ensures notFoundGPUs == Dropped(gpus, overrideGPUs)
  {
    resultGPUs, notFoundGPUs := [], [];
    var i := 0;
    while i < |gpus|
      invariant 0 <= i <= |gpus|
      invariant resultGPUs == Kept(gpus[..i], overrideGPUs)
      invariant notFoundGPUs == Dropped(gpus[..i], overrideGPUs)
    {
      var gpu := gpus[i];
      assert gpus[..i + 1] == gpus[..i] + [gpu];
      FilterSnoc(gpus[..i], gpu, InAffinity(overrideGPUs));
      FilterSnoc(gpus[..i], gpu, NotInAffinity(overrideGPUs));
      if gpu in overrideGPUs {
        resultGPUs := resultGPUs + [gpu];
      } else {
        notFoundGPUs := notFoundGPUs + [gpu];
      }
      i := i + 1;
    }
    assert gpus[..i] == gpus;
  }

  /** What `GetGpuOverrides` decides for this job on this Worker. */
  function GpuOverrides(info: PluginInfo, host: WorkerHost): GpuDecision {
    if !info.useGpu.GetOr(false) then GpuDecision([], [], None)
    else
      var selected := RequestedDevices(info);
      if host.overrideGpuAffinity then
        var allowed := AffinityNames(host.gpuAffinity);
        if selected != "" then
          var requested := Split(selected, ',');
          var found := Kept(requested, allowed);
          var notFound := Dropped(requested, allowed);
          GpuDecision(found,
                      if |notFound| > 0 then [MismatchWarning(notFound)] else [],
                      if |found| == 0 then Some(NoAffinityMessage) else None)
        else GpuDecision(allowed, [], None)
      else if selected != "" then GpuDecision(Split(selected, ','), [], None)
      else GpuDecision(["0"], [DefaultGpuWarning], None)
  }

  // ---------------------------------------------------------------------------
  // Properties
  // ---------------------------------------------------------------------------

  /**
   * The requests split into the kept and the dropped ones: a kept GPU is requested and
   * allowed, a dropped one requested and not allowed, together a permutation of the
   * request; splitting the request in two keeps each half's kept GPUs in order.
   */
  lemma KeptAndDropped(requested: seq<string>, allowed: seq<string>, gpu: string)
    ensures gpu in Kept(requested, allowed) <==> gpu in requested && gpu in allowed
    ensures gpu in Dropped(requested, allowed) <==> gpu in requested && gpu !in allowed
    ensures multiset(Kept(requested, allowed)) + multiset(Dropped(requested, allowed)) == multiset(requested)
    ensures forall k :: 0 <= k <= |requested| ==>
      Kept(requested, allowed) == Kept(requested[..k], allowed) + Kept(requested[k..], allowed)
  {
    FilterMember(requested, InAffinity(allowed), gpu);
    FilterMember(requested, NotInAffinity(allowed), gpu);
    FilterPartition(requested, InAffinity(allowed), NotInAffinity(allowed));
    forall k | 0 <= k <= |requested|
      ensures Kept(requested, allowed) == Kept(requested[..k], allowed) + Kept(requested[k..], allowed)
    {
      assert requested == requested[..k] + requested[k..];
      FilterConcat(requested[..k], requested[k..], InAffinity(allowed));
    }
  }

  /** The five outcomes of `GetGpuOverrides`. */
  lemma GpuSelectionOutcomes(info: PluginInfo, host: WorkerHost)
    ensures var d := GpuOverrides(info, host);
      var selected := RequestedDevices(info);
      var allowed := AffinityNames(host.gpuAffinity);
      && (!info.useGpu.GetOr(false) ==> d.gpus == [] && d.failure == None)
      && (info.useGpu.GetOr(false) && host.overrideGpuAffinity && selected != "" ==>
            d.gpus == Kept(Split(selected, ','), allowed)
            && (d.failure.Some? <==> forall g :: g in Split(selected, ',') ==> g !in allowed))
      && (info.useGpu.GetOr(false) && host.overrideGpuAffinity && selected == "" ==>
            d.gpus == allowed && d.failure == None)
      && (info.useGpu.GetOr(false) && !host.overrideGpuAffinity && selected != "" ==>
            d.gpus == Split(selected, ',') && d.failure == None)
      && (info.useGpu.GetOr(false) && !host.overrideGpuAffinity && selected == "" ==>
            d.gpus == ["0"] && d.failure == None)
  {
    var selected := RequestedDevices(info);
    var allowed := AffinityNames(host.gpuAffinity);
    if info.useGpu.GetOr(false) && host.overrideGpuAffinity && selected != "" {
      var requested := Split(selected, ',');
      var found := Kept(requested, allowed);
      if |found| == 0 {
        forall g | g in requested ensures g !in allowed {
          KeptAndDropped(requested, allowed, g);
        }
      } else {
        KeptAndDropped(requested, allowed, found[0]);
      }
    }
  }

  /** Under a GPU affinity override, every GPU handed on is one the Worker has affinity for. */
  lemma SelectionWithinAffinity(info: PluginInfo, host: WorkerHost, gpu: string)
    requires host.overrideGpuAffinity
    requires GpuOverrides(info, host).failure.None?
    requires gpu in GpuOverrides(info, host).gpus
    ensures gpu in AffinityNames(host.gpuAffinity)
  {
    if info.useGpu.GetOr(false) && RequestedDevices(info) != "" {
      KeptAndDropped(Split(RequestedDevices(info), ','), AffinityNames(host.gpuAffinity), gpu);
    }
  }

  /** The selected GPU names never contain a comma, so EDDY_DEVICE_LIST can be split back. */
  lemma SelectionCommaFree(info: PluginInfo, host: WorkerHost)
    ensures FreeOf(GpuOverrides(info, host).gpus, ',')
  {
    var d := GpuOverrides(info, host);
    var selected := RequestedDevices(info);
    SplitShape(selected, ',');
    forall i | 0 <= i < |d.gpus| ensures ',' !in d.gpus[i] {
      if info.useGpu.GetOr(false) && host.overrideGpuAffinity {
        if selected != "" {
          KeptAndDropped(Split(selected, ','), AffinityNames(host.gpuAffinity), d.gpus[i]);
          assert d.gpus[i] in Split(selected, ',');
        } else {
          assert IsDigits(d.gpus[i]);
        }
      }
    }
  }

  /** On a Worker with affinity 1,2 overriding its affinity, the request 0,1,2 keeps 1,2. */
  lemma PartialAffinityExample(info: PluginInfo, host: WorkerHost)
    requires info.useGpu == Some(true) && info.useSpecificGpu == Some(true)
    requires info.gpuOverride == Some("0,1,2")
    requires host.overrideGpuAffinity && host.gpuAffinity == [1, 2]
    ensures GpuOverrides(info, host).gpus == ["1", "2"]
    ensures GpuOverrides(info, host).failure == None
  {
    var allowed := AffinityNames(host.gpuAffinity);
    assert allowed == ["1", "2"];
    SplitThreeGpus();
    KeptOneTwo(allowed);
  }

  lemma SplitThreeGpus()
    ensures Split("0,1,2", ',') == ["0", "1", "2"]
  {
    var requested := ["0", "1", "2"];
    assert requested[1..] == ["1", "2"];
    assert ["1", "2"][1..] == ["2"];
    assert Join(requested, ',') == "0,1,2";
    SplitJoin(requested, ',');
  }

  lemma KeptOneTwo(allowed: seq<string>)
    requires allowed == ["1", "2"]
    ensures Kept(["0", "1", "2"], allowed) == ["1", "2"]
  {
    var requested := ["0", "1", "2"];
    assert requested[..2] == ["0", "1"];
    assert ["0", "1"][..1] == ["0"];
    assert ["0"][..0] == [];
    FilterSnoc(["0"], "1", InAffinity(allowed));
    FilterSnoc(["0", "1"], "2", InAffinity(allowed));
  }

  /** On the same Worker the request 5 matches nothing and the render fails. */
  lemma NoAffinityExample(info: PluginInfo, host: WorkerHost)
    requires info.useGpu == Some(true) && info.useSpecificGpu == Some(true)
    requires info.gpuOverride == Some("5")
    requires host.overrideGpuAffinity && host.gpuAffinity == [1, 2]
    ensures GpuOverrides(info, host).gpus == []
    ensures GpuOverrides(info, host).failure == Some(NoAffinityMessage)
  {
    var allowed := AffinityNames(host.gpuAffinity);
    assert allowed == ["1", "2"];
    SplitFree("5", ',');
    assert Kept(["5"], allowed) == [] by {
      assert ["5"][..0] == [];
    }
  }
}
