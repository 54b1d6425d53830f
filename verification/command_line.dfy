/**
 * The argument vector `RenderArgument` hands to Nuke and the device list it exports
 * as EDDY_DEVICE_LIST, given the GPUs `GetGpuOverrides` selected. With more than one
 * GPU selected, each render thread is narrowed to the GPU at its own thread number.
 */
module CommandLine {
  import opened Wrappers
  import opened Text

  const VerbosityFlag := "-V 2"
  const ContinueFlag := "--cont"
  const FrameFlag := "-F 1"
  const ExecuteFlag := "-X"
  const GpuFlag := "--gpu"

  /** Python's message when `gpuOverrides[threadNumber]` is past the end of the list. */
  const IndexErrorMessage := "IndexError: list index out of range"

  /** Whether the selected list is narrowed to the thread's own GPU. */
  predicate Narrows(useGpu: bool, gpus: seq<string>) {
    useGpu && |gpus| > 1
  }

  /** The list after narrowing: `[gpuOverrides[threadNumber]]` when several GPUs were selected. */
  function FinalGpus(useGpu: bool, gpus: seq<string>, thread: nat): (final: seq<string>)
    requires Narrows(useGpu, gpus) ==> thread < |gpus|
    ensures Narrows(useGpu, gpus) ==> final == [gpus[thread]]
    ensures !Narrows(useGpu, gpus) ==> final == gpus
  {
    if Narrows(useGpu, gpus) then [gpus[thread]] else gpus
  }

  /** The arguments, in order, before they are joined with spaces. */
  function Arguments(continueOnError: bool, node: string, useGpu: bool, final: seq<string>,
                     narrowed: bool, scene: string): seq<string>
  {
    [VerbosityFlag]
    + (if continueOnError then [ContinueFlag] else [])
    + [FrameFlag, ExecuteFlag, node]
    + (if useGpu then [GpuFlag] + (if narrowed then [Join(final, ',')] else []) else [])
    + [scene]
  }

  /** What `RenderArgument` produces once the GPUs are chosen. */
  datatype Render = Render(arguments: seq<string>, deviceList: string)

  /**
   * `RenderArgument` after `GetGpuOverrides`: the argument vector and EDDY_DEVICE_LIST,
   * or the IndexError raised when the thread number is past the selected list.
   */
  function RenderPlan(continueOnError: bool, node: string, useGpu: bool, gpus: seq<string>,
                      thread: nat, scene: string): Result<Render, string>
  {
    if Narrows(useGpu, gpus) && thread >= |gpus| then Failure(IndexErrorMessage)
    else
      var final := FinalGpus(useGpu, gpus, thread);
      Success(Render(Arguments(continueOnError, node, useGpu, final, Narrows(useGpu, gpus), scene),
                     Join(final, ',')))
  }

  /** The command line itself: `' '.join(renderarguments)`. */
  function CommandText(r: Render): string {
    Join(r.arguments, ' ')
  }

  // ---------------------------------------------------------------------------
  // Reading an argument vector back
  // ---------------------------------------------------------------------------

  /** The settings an argument vector carries, as Nuke reads them. */
  datatype Invocation = Invocation(
    continueOnError: bool, node: string, gpu: bool, device: Option<string>, scene: string)

  /** The options after `-X <node>`: the scene alone, `--gpu` and the scene, or `--gpu`, a device and the scene. */
  function ReadTail(rest: seq<string>): Option<(bool, Option<string>, string)> {
    if |rest| == 1 then Some((false, None, rest[0]))
    else if |rest| == 2 && rest[0] == GpuFlag then Some((true, None, rest[1]))
    else if |rest| == 3 && rest[0] == GpuFlag then Some((true, Some(rest[1]), rest[2]))
    else None
  }

  /** An independent reading of an argument vector, position by position. */
  function ReadArguments(args: seq<string>): Option<Invocation> {
    if |args| < 1 || args[0] != VerbosityFlag then None
    else
      var cont := |args| > 1 && args[1] == ContinueFlag;
      var at := if cont then 2 else 1;
      if |args| < at + 3 || args[at] != FrameFlag || args[at + 1] != ExecuteFlag then None
      else
        match ReadTail(args[at + 3..])
        case None => None
        case Some(t) => Some(Invocation(cont, args[at + 2], t.0, t.1, t.2))
  }

  // ---------------------------------------------------------------------------
  // Properties
  // ---------------------------------------------------------------------------

  /** The plan fails exactly when a narrowing thread number is past the selected list. */
  lemma RenderPlanFailsOnlyPastTheList(continueOnError: bool, node: string, useGpu: bool,
                                       gpus: seq<string>, thread: nat, scene: string)
    ensures RenderPlan(continueOnError, node, useGpu, gpus, thread, scene).Failure?
        <==> useGpu && |gpus| > 1 && thread >= |gpus|
  {
  }

  /**
   * The argument vector reads back as: `--cont` exactly when ContinueOnError, the node
   * after `-X`, `--gpu` exactly when UseGpu, a device only when several GPUs were
   * selected (the thread's own), and the scene last.
   */
  lemma ArgumentsReadBack(continueOnError: bool, node: string, useGpu: bool,
                          gpus: seq<string>, thread: nat, scene: string)
    requires RenderPlan(continueOnError, node, useGpu, gpus, thread, scene).Success?
    ensures ReadArguments(RenderPlan(continueOnError, node, useGpu, gpus, thread, scene).value.arguments)
      == Some(Invocation(continueOnError, node, useGpu,
                         if useGpu && |gpus| > 1 then Some(gpus[thread]) else None, scene))
  {
    var final := FinalGpus(useGpu, gpus, thread);
    var narrowed := Narrows(useGpu, gpus);
    var args := Arguments(continueOnError, node, useGpu, final, narrowed, scene);
    var at := if continueOnError then 2 else 1;
    var gpuPart := if useGpu then [GpuFlag] + (if narrowed then [Join(final, ',')] else []) else [];
    var head := [VerbosityFlag] + (if continueOnError then [ContinueFlag] else []);
    assert args == head + [FrameFlag, ExecuteFlag, node] + (gpuPart + [scene]);
    ThreeParts(head, [FrameFlag, ExecuteFlag, node], gpuPart + [scene]);
    assert head[0] == VerbosityFlag && (continueOnError ==> head[1] == ContinueFlag);
    if narrowed {
      assert Join(final, ',') == gpus[thread];
    }
  }

  /** Where the middle and the last of three concatenated parts sit. */
  lemma ThreeParts<T>(p: seq<T>, m: seq<T>, t: seq<T>)
    ensures forall i :: 0 <= i < |p| ==> (p + m + t)[i] == p[i]
    ensures forall i :: 0 <= i < |m| ==> (p + m + t)[|p| + i] == m[i]
    ensures (p + m + t)[|p| + |m|..] == t
  {
  }

  /**
   * The device on the command line is EDDY_DEVICE_LIST; without narrowing the whole
   * selected list is exported, and that list splits back into the selection when no
   * selected name holds a comma.
   */
  lemma DeviceListMatchesArguments(continueOnError: bool, node: string, useGpu: bool,
                                   gpus: seq<string>, thread: nat, scene: string)
    requires RenderPlan(continueOnError, node, useGpu, gpus, thread, scene).Success?
    requires FreeOf(gpus, ',')
    ensures var r := RenderPlan(continueOnError, node, useGpu, gpus, thread, scene).value;
      && (useGpu && |gpus| > 1 ==> r.deviceList == gpus[thread] && gpus[thread] in r.arguments)
      && (!(useGpu && |gpus| > 1) ==> r.deviceList == Join(gpus, ','))
      && (|gpus| > 0 ==> Split(r.deviceList, ',') == FinalGpus(useGpu, gpus, thread))
  {
    var final := FinalGpus(useGpu, gpus, thread);
    if |gpus| > 0 {
      assert FreeOf(final, ',');
      SplitJoin(final, ',');
    }
    if Narrows(useGpu, gpus) {
      NarrowedDevice(continueOnError, node, gpus, thread, scene);
    }
  }

  /** A narrowed render names its one device both on the command line and in EDDY_DEVICE_LIST. */
  lemma NarrowedDevice(continueOnError: bool, node: string, gpus: seq<string>, thread: nat, scene: string)
    requires |gpus| > 1 && thread < |gpus|
    ensures var r := RenderPlan(continueOnError, node, true, gpus, thread, scene).value;
      r.deviceList == gpus[thread] && gpus[thread] in r.arguments
  {
    var r := RenderPlan(continueOnError, node, true, gpus, thread, scene).value;
    assert FinalGpus(true, gpus, thread) == [gpus[thread]];
    assert Join([gpus[thread]], ',') == gpus[thread];
    var head := [VerbosityFlag] + (if continueOnError then [ContinueFlag] else []);
    var tail := [GpuFlag, gpus[thread], scene];
    assert r.arguments == head + [FrameFlag, ExecuteFlag, node] + tail;
    ThreeParts(head, [FrameFlag, ExecuteFlag, node], tail);
    assert tail[1] in r.arguments;
  }

  /** Without GPUs the plan cannot fail, Nuke reads no GPU option and the device list is empty. */
  lemma CpuRender(continueOnError: bool, node: string, thread: nat, scene: string)
    ensures var r := RenderPlan(continueOnError, node, false, [], thread, scene);
      && r.Success? && r.value.deviceList == ""
      && ReadArguments(r.value.arguments) == Some(Invocation(continueOnError, node, false, None, scene))
  {
    ArgumentsReadBack(continueOnError, node, false, [], thread, scene);
  }
}
