/**
 * The two objects of the CopyCat job plugin as the Deadline Worker sees them:
 * `CopyCatPlugin`, which owns the environment handed to the training process, the
 * log and the render failure, and `CopyCatProcess`, the managed Nuke process with its
 * ready flag and stdout handlers. A render failure raised by `FailRender` ends the
 * method that raised it; here it is recorded in `failure` and the method returns.
 */
module Plugin {
  import opened Wrappers
  import opened Text
  import opened PluginInfo
  import opened Topology
  import opened GpuSelection
  import opened CommandLine
  import opened LibPath
  import opened Handshake

  /** Why a render stopped: `FailRender` with its message, or an uncaught Python exception. */
  datatype Abort = RenderFailed(message: string) | PythonError(message: string)

  /** `Ready(k)` seen from `i` passes earlier: the pass count grows by `i`. */
  function Later(o: WaitOutcome, i: nat): WaitOutcome {
    match o
    case Ready(k) => Ready(k + i)
    case other => other
  }

  class CopyCatPlugin {
    const info: PluginInfo
    const host: WorkerHost
    /** The variables set with `SetProcessEnvironmentVariable` for the Nuke process. */
    var processEnvironment: map<string, string>
    var failure: Option<Abort>
    var warnings: seq<string>
    var progress: Option<real>
    var status: Option<string>
    /** The statements written to the Nuke process's stdin. */
    var stdin: seq<string>

    constructor(info: PluginInfo, host: WorkerHost)
      ensures this.info == info && this.host == host
      ensures processEnvironment == map[] && failure == None && warnings == []
      ensures progress == None && status == None && stdin == []
    {
      this.info := info;
      this.host := host;
      processEnvironment := map[];
      failure := None;
      warnings := [];
      progress := None;
      status := None;
      stdin := [];
    }

    method SetProcessEnvironmentVariable(key: string, value: string)
      modifies this
      ensures processEnvironment == old(processEnvironment)[key := value]
      ensures failure == old(failure) && warnings == old(warnings)
      ensures progress == old(progress) && status == old(status) && stdin == old(stdin)
    {
      processEnvironment := processEnvironment[key := value];
    }

    method FailRender(message: string)
      modifies this
      ensures failure == Some(RenderFailed(message))
      ensures processEnvironment == old(processEnvironment) && warnings == old(warnings)
      ensures progress == old(progress) && status == old(status) && stdin == old(stdin)
    {
      failure := Some(RenderFailed(message));
    }

    method LogWarning(message: string)
      modifies this
      ensures warnings == old(warnings) + [message]
      ensures processEnvironment == old(processEnvironment) && failure == old(failure)
      ensures progress == old(progress) && status == old(status) && stdin == old(stdin)
    {
      warnings := warnings + [message];
    }

    method WriteStdinToMonitoredManagedProcess(statement: string)
      modifies this
      ensures stdin == old(stdin) + [statement]
      ensures processEnvironment == old(processEnvironment) && failure == old(failure)
      ensures warnings == old(warnings) && progress == old(progress) && status == old(status)
    {
      stdin := stdin + [statement];
    }

    /**
     * `SetupCopyCatEnv`: on success the six `COPYCAT_*` variables are set to the decided
     * values; on the main-machine address mismatch the render fails and none is set.
     */
    method SetupCopyCatEnv()
      modifies this
      ensures CopyCatEnv(info, host).Failure? ==>
        failure == Some(RenderFailed(CopyCatEnv(info, host).error))
        && processEnvironment == old(processEnvironment)
      ensures CopyCatEnv(info, host).Success? ==>
        failure == old(failure)
        && processEnvironment == old(processEnvironment) + EnvironmentOf(CopyCatEnv(info, host).value)
      ensures warnings == old(warnings) && progress == old(progress)
      ensures status == old(status) && stdin == old(stdin)
    {
      var r := ResolveTopology(info, host);
      if r.Failure? {
        FailRender(r.error);
        return;
      }
      ExportCopyCatVars(r.value);
    }

    /** The six `SetProcessEnvironmentVariable` calls that end `SetupCopyCatEnv`. */
    method ExportCopyCatVars(v: CopyCatVars)
      modifies this
      ensures processEnvironment == old(processEnvironment) + EnvironmentOf(v)
      ensures failure == old(failure) && warnings == old(warnings)
      ensures progress == old(progress) && status == old(status) && stdin == old(stdin)
    {
      ghost var e := processEnvironment;
      SetProcessEnvironmentVariable("COPYCAT_MAIN_ADDR", v.mainAddr);
      SetProcessEnvironmentVariable("COPYCAT_RANK", NatToString(v.rank));
      SetProcessEnvironmentVariable("COPYCAT_LOCAL_ADDR", v.localAddr);
      SetProcessEnvironmentVariable("COPYCAT_MAIN_PORT", IntToString(v.port));
      SetProcessEnvironmentVariable("COPYCAT_WORLD_SIZE", NatToString(v.worldSize));
      SetProcessEnvironmentVariable("COPYCAT_SYNC_INTERVAL", IntToString(v.syncInterval));
      SixWrites(e, v);
    }

    /** `scrubLibPath`: the Worker's value of `envVar` with the Deadline directories removed. */
    method ScrubLibPath(envVar: string)
      modifies this
      ensures processEnvironment == ScrubInto(old(processEnvironment), host.processEnvironment, envVar)
      ensures failure == old(failure) && warnings == old(warnings)
      ensures progress == old(progress) && status == old(status) && stdin == old(stdin)
    {
      var ldPaths := WorkerValue(host.processEnvironment, envVar);
      if ldPaths.Some? && ldPaths.value != "" {
        var segments := Split(ldPaths.value, ':');
        var newLDPaths := FilterSegments(segments);
        var joined := if |newLDPaths| > 0 then Join(newLDPaths, ':') else "";
        SetProcessEnvironmentVariable(envVar, joined);
      }
    }

    /** `scrubLibPaths`: the LD and DYLD search paths, one after the other. */
    method ScrubLibPaths()
      modifies this
      ensures processEnvironment == ScrubAll(old(processEnvironment), host.processEnvironment, ScrubbedVariables)
      ensures failure == old(failure) && warnings == old(warnings)
      ensures progress == old(progress) && status == old(status) && stdin == old(stdin)
    {
      ScrubLibPath("LD_LIBRARY_PATH");
      ScrubLibPath("DYLD_LIBRARY_PATH");
      ScrubLibPath("DYLD_FALLBACK_LIBRARY_PATH");
      ScrubLibPath("DYLD_FRAMEWORK_PATH");
      ScrubLibPath("DYLD_FALLBACK_FRAMEWORK_PATH");
      ghost var names := ScrubbedVariables;
      assert names[1..][1..][1..][1..][1..] == [];
    }

    /**
     * `WaitForProcess`: flushes Nuke's stdout (`staleReadyLine` says whether that flush
     * runs the ready handler on a marker still pending from earlier output), asks Nuke
     * to print the ready marker, then polls until the flag is up, failing when Nuke has
     * exited, then on a popup, then on a cancel request. The outcome is the one `Wait`
     * describes; on reaching readiness the flag is lowered again.
     */
    method WaitForProcess(p: CopyCatProcess, staleReadyLine: bool, polls: seq<Poll>) returns (outcome: WaitOutcome)
      modifies this, p
      ensures outcome == Wait(old(p.readyForInput) || staleReadyLine, polls)
      ensures stdin == old(stdin) + [ReadyForInputCommand()]
      ensures outcome.Failed? ==> failure == Some(RenderFailed(outcome.message))
      ensures !outcome.Failed? ==> failure == old(failure) && !p.readyForInput
      ensures processEnvironment == old(processEnvironment) && warnings == old(warnings)
      ensures progress == old(progress) && status == old(status)
      ensures p.tempSceneFilename == old(p.tempSceneFilename)
    {
      if staleReadyLine {
        p.HandleReadyForInput();
      }
      WriteStdinToMonitoredManagedProcess(ReadyForInputCommand());
      ghost var ready0 := p.readyForInput;
      var i := 0;
      while !p.IsReadyForInput()
        invariant 0 <= i <= |polls|
        invariant Wait(ready0, polls) == Later(Wait(p.readyForInput, polls[i..]), i)
        invariant stdin == old(stdin) + [ReadyForInputCommand()]
        invariant failure == old(failure)
        invariant processEnvironment == old(processEnvironment) && warnings == old(warnings)
        invariant progress == old(progress) && status == old(status)
        invariant p.tempSceneFilename == old(p.tempSceneFilename)
        decreases |polls| - i
      {
        if i == |polls| {
          return StillWaiting;
        }
        var poll := polls[i];
        assert polls[i..][1..] == polls[i + 1..];
        if poll.exitMessage != "" {
          FailRender(poll.exitMessage);
          return Failed(poll.exitMessage);
        }
        if poll.readyLineSeen {
          p.HandleReadyForInput();
        }
        if poll.popupMessage != "" {
          FailRender(poll.popupMessage);
          return Failed(poll.popupMessage);
        }
        if poll.canceled {
          FailRender(CancelMessage);
          return Failed(CancelMessage);
        }
        assert p.readyForInput == poll.readyLineSeen;
        i := i + 1;
      }
      p.ResetReadyForInput();
      outcome := Ready(i);
    }
  }

  class CopyCatProcess {
    const deadlinePlugin: CopyCatPlugin
    var readyForInput: bool
    /** The scene file Nuke opens, prepared before the render (path mapping is not modelled). */
    var tempSceneFilename: string

    constructor(deadlinePlugin: CopyCatPlugin, sceneFile: string)
      ensures this.deadlinePlugin == deadlinePlugin
      ensures !readyForInput && tempSceneFilename == sceneFile
    {
      this.deadlinePlugin := deadlinePlugin;
      readyForInput := false;
      tempSceneFilename := sceneFile;
    }

    /** The handler of the `READY FOR INPUT` stdout line. */
    method HandleReadyForInput()
      modifies this
      ensures readyForInput
      ensures tempSceneFilename == old(tempSceneFilename)
    {
      readyForInput := true;
    }

    predicate IsReadyForInput()
      reads this
    {
      readyForInput
    }

    method ResetReadyForInput()
      modifies this
      ensures !readyForInput
      ensures tempSceneFilename == old(tempSceneFilename)
    {
      readyForInput := false;
    }

    /**
     * The handler of the error patterns: the render fails with the text the pattern
     * matched (`GetRegexMatch(0)`), unless ContinueOnError, when only a warning is logged.
     */
    method HandleError(matched: string)
      modifies deadlinePlugin
      ensures !deadlinePlugin.info.continueOnError.GetOr(false) ==>
        deadlinePlugin.failure == Some(RenderFailed(matched))
        && deadlinePlugin.warnings == old(deadlinePlugin.warnings)
      ensures deadlinePlugin.info.continueOnError.GetOr(false) ==>
        deadlinePlugin.failure == old(deadlinePlugin.failure)
        && deadlinePlugin.warnings == old(deadlinePlugin.warnings) + [ContinueOnErrorWarning]
      ensures deadlinePlugin.processEnvironment == old(deadlinePlugin.processEnvironment)
      ensures deadlinePlugin.progress == old(deadlinePlugin.progress)
      ensures deadlinePlugin.status == old(deadlinePlugin.status)
      ensures deadlinePlugin.stdin == old(deadlinePlugin.stdin)
    {
      if !deadlinePlugin.info.continueOnError.GetOr(false) {
        deadlinePlugin.FailRender(matched);
      } else {
        deadlinePlugin.LogWarning(ContinueOnErrorWarning);
      }
    }

    /**
     * The handler of `Frame N (current of total)`: the progress is set only when the
     * total is not 0, the status message is always the matched line.
     */
    method HandleProgress(matched: string, currentGroup: string, totalGroup: string)
      requires IsDigits(currentGroup) && IsDigits(totalGroup)
      modifies deadlinePlugin
      ensures var p := FrameProgress(currentGroup, totalGroup);
        deadlinePlugin.progress == if p.Some? then p else old(deadlinePlugin.progress)
      ensures deadlinePlugin.status == Some(matched)
      ensures deadlinePlugin.processEnvironment == old(deadlinePlugin.processEnvironment)
      ensures deadlinePlugin.failure == old(deadlinePlugin.failure)
      ensures deadlinePlugin.warnings == old(deadlinePlugin.warnings)
      ensures deadlinePlugin.stdin == old(deadlinePlugin.stdin)
    {
      var currFrame := DecimalValue(currentGroup);
      var totalFrames := DecimalValue(totalGroup);
      if totalFrames != 0 {
        deadlinePlugin.progress := Some((currFrame as real / totalFrames as real) * 100.0);
      }
      deadlinePlugin.status := Some(matched);
    }

    /**
     * `GetGpuOverrides`: the GPUs `GpuOverrides` decides, with its warnings logged, or
     * `None` after failing the render when the affinity leaves no requested GPU.
     */
    method GetGpuOverrides() returns (result: Option<seq<string>>)
      modifies deadlinePlugin
      ensures var d := GpuOverrides(deadlinePlugin.info, deadlinePlugin.host);
        && deadlinePlugin.warnings == old(deadlinePlugin.warnings) + d.warnings
        && (d.failure.None? ==> result == Some(d.gpus) && deadlinePlugin.failure == old(deadlinePlugin.failure))
        && (d.failure.Some? ==> result == None && deadlinePlugin.failure == Some(RenderFailed(d.failure.value)))
      ensures deadlinePlugin.processEnvironment == old(deadlinePlugin.processEnvironment)
      ensures deadlinePlugin.progress == old(deadlinePlugin.progress)
      ensures deadlinePlugin.status == old(deadlinePlugin.status)
      ensures deadlinePlugin.stdin == old(deadlinePlugin.stdin)
    {
      var info := deadlinePlugin.info;
      var host := deadlinePlugin.host;
      if !info.useGpu.GetOr(false) {
        return Some([]);
      }
      var gpusSelectDevices := "";
      if info.useSpecificGpu.GetOr(false) {
        gpusSelectDevices := info.gpuOverride.GetOr("0");
      }
      var resultGPUs: seq<string> := [];
      if host.overrideGpuAffinity {
        var overrideGPUs := AffinityNames(host.gpuAffinity);
        if gpusSelectDevices != "" {
          var gpus := Split(gpusSelectDevices, ',');
          var notFoundGPUs;
          resultGPUs, notFoundGPUs := PartitionByAffinity(gpus, overrideGPUs);
          if |notFoundGPUs| > 0 {
            deadlinePlugin.LogWarning(MismatchWarning(notFoundGPUs));
          }
          if |resultGPUs| == 0 {
            deadlinePlugin.FailRender(NoAffinityMessage);
            return None;
          }
        } else {
          resultGPUs := overrideGPUs;
        }
      } else if gpusSelectDevices != "" {
        resultGPUs := Split(gpusSelectDevices, ',');
      } else {
        deadlinePlugin.LogWarning(DefaultGpuWarning);
        resultGPUs := ["0"];
      }
      return Some(resultGPUs);
    }

    /**
     * `RenderArgument`: the space-joined argument vector of `RenderPlan`, with
     * EDDY_DEVICE_LIST set to its device list; nothing is set when `GetGpuOverrides`
     * failed the render or the thread number is past the selected GPUs.
     */
    method RenderArgument() returns (arguments: Option<string>)
      modifies deadlinePlugin
      ensures var info := deadlinePlugin.info;
        var d := GpuOverrides(info, deadlinePlugin.host);
        var plan := RenderPlan(info.continueOnError.GetOr(false), info.copyCatNode, info.useGpu.GetOr(false),
                               d.gpus, deadlinePlugin.host.threadNumber, tempSceneFilename);
        && deadlinePlugin.warnings == old(deadlinePlugin.warnings) + d.warnings
        && (d.failure.Some? ==>
              arguments == None
              && deadlinePlugin.failure == Some(RenderFailed(d.failure.value))
              && deadlinePlugin.processEnvironment == old(deadlinePlugin.processEnvironment))
        && (d.failure.None? && plan.Failure? ==>
              arguments == None
              && deadlinePlugin.failure == Some(PythonError(plan.error))
              && deadlinePlugin.processEnvironment == old(deadlinePlugin.processEnvironment))
        && (d.failure.None? && plan.Success? ==>
              arguments == Some(CommandText(plan.value))
              && deadlinePlugin.failure == old(deadlinePlugin.failure)
              && deadlinePlugin.processEnvironment
                 == old(deadlinePlugin.processEnvironment)["EDDY_DEVICE_LIST" := plan.value.deviceList])
      ensures deadlinePlugin.progress == old(deadlinePlugin.progress)
      ensures deadlinePlugin.status == old(deadlinePlugin.status)
      ensures deadlinePlugin.stdin == old(deadlinePlugin.stdin)
    {
      var info := deadlinePlugin.info;
      var renderarguments := [VerbosityFlag];
      if info.continueOnError.GetOr(false) {
        renderarguments := renderarguments + [ContinueFlag];
      }
      renderarguments := renderarguments + [FrameFlag];
      var copycatNode := info.copyCatNode;
      renderarguments := renderarguments + [ExecuteFlag];
      renderarguments := renderarguments + [copycatNode];
      var selected := GetGpuOverrides();
      if selected.None? {
        return None;
      }
      arguments := FinishArguments(renderarguments, selected.value);
    }

    /**
     * The rest of `RenderArgument` once the GPUs are chosen: `--gpu` and the narrowed
     * device, EDDY_DEVICE_LIST, the scene file, and the space-joined result.
     */
    method FinishArguments(renderarguments: seq<string>, gpuOverrides: seq<string>) returns (arguments: Option<string>)
      requires var info := deadlinePlugin.info;
        renderarguments == [VerbosityFlag] + (if info.continueOnError.GetOr(false) then [ContinueFlag] else [])
                           + [FrameFlag, ExecuteFlag, info.copyCatNode]
      modifies deadlinePlugin
      ensures var info := deadlinePlugin.info;
        var plan := RenderPlan(info.continueOnError.GetOr(false), info.copyCatNode, info.useGpu.GetOr(false),
                               gpuOverrides, deadlinePlugin.host.threadNumber, tempSceneFilename);
        && (plan.Failure? ==>
              arguments == None
              && deadlinePlugin.failure == Some(PythonError(plan.error))
              && deadlinePlugin.processEnvironment == old(deadlinePlugin.processEnvironment))
        && (plan.Success? ==>
              arguments == Some(CommandText(plan.value))
              && deadlinePlugin.failure == old(deadlinePlugin.failure)
              && deadlinePlugin.processEnvironment
                 == old(deadlinePlugin.processEnvironment)["EDDY_DEVICE_LIST" := plan.value.deviceList])
      ensures deadlinePlugin.warnings == old(deadlinePlugin.warnings)
      ensures deadlinePlugin.progress == old(deadlinePlugin.progress)
      ensures deadlinePlugin.status == old(deadlinePlugin.status)
      ensures deadlinePlugin.stdin == old(deadlinePlugin.stdin)
    {
      var info := deadlinePlugin.info;
      var renderarguments := renderarguments;
      var gpuOverrides := gpuOverrides;
      ghost var chosen := gpuOverrides;
      var useGpu := info.useGpu.GetOr(false);
      if useGpu {
        renderarguments := renderarguments + [GpuFlag];
        if |gpuOverrides| > 1 {
          var thread := deadlinePlugin.host.threadNumber;
          if thread >= |gpuOverrides| {
            deadlinePlugin.failure := Some(PythonError(IndexErrorMessage));
            return None;
          }
          gpuOverrides := [gpuOverrides[thread]];
          renderarguments := renderarguments + [Join(gpuOverrides, ',')];
        }
      }
      assert gpuOverrides == FinalGpus(useGpu, chosen, deadlinePlugin.host.threadNumber);
      deadlinePlugin.SetProcessEnvironmentVariable("EDDY_DEVICE_LIST", Join(gpuOverrides, ','));
      renderarguments := renderarguments + [tempSceneFilename];
      assert renderarguments == Arguments(info.continueOnError.GetOr(false), info.copyCatNode, useGpu,
                                          gpuOverrides, Narrows(useGpu, chosen), tempSceneFilename);
      arguments := Some(Join(renderarguments, ' '));
    }
  }
}
