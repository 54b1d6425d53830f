# CopyCat distributed training on Deadline, in Dafny

A model of the two Deadline plugins that run Nuke's CopyCat training on several
render nodes at once.

On the Worker side, the `CopyCat` job plugin does the following for each machine:

- It resolves the machine's rank in the training group and exports the six
  `COPYCAT_*` variables.
- It selects the GPUs the machine may use and builds the Nuke command line, with
  EDDY_DEVICE_LIST.
- It removes the Deadline library directories from the LD/DYLD search paths.
- It drives the Nuke process through the ready-for-input handshake, and turns Nuke's
  error and progress lines into render failures, warnings, progress and status.

On the artist's side, the Nuke submitter does the following:

- It lists the Workers of the `copycat` group with the main machine first.
- It counts the world size.
- It unwraps Deadline's `{ok, result}` JSON answers.
- It names the job after the script.
- It checks the Nuke version and the main machine's address.
- It builds the job and plugin info that the Workers later read.

Modules:

- `Topology`: the rank decision of `SetupCopyCatEnv` (`CopyCatEnv`) and its loop.
- `GpuSelection`: the GPU policy of `GetGpuOverrides`.
- `CommandLine`: the argument vector of `RenderArgument`.
- `LibPath`: `scrubLibPath` on one value, and on the process environment.
- `Handshake`: the poll loop of `WaitForProcess` as a function of poll observations,
  and the progress percentage.
- `Plugin`: the classes `CopyCatPlugin` and `CopyCatProcess`, whose methods change
  the process environment, the failure, the log, stdin, progress, status and the
  ready flag, as the Python methods do.
- `MachineOrder`: `getMachinesInOrder`'s reordering and `setWorldSize`'s count.
- `DeadlineJson`: `getJSONResponseFromDeadline`'s envelope.
- `Submission`: the job and plugin info, the gates, and the outcome of a whole
  submission: `SubmitAsWritten` as the code is, `Submit` with `getJobInfoDict` corrected.
- `Dialog`: the class `CopyCatDialog` and the method `SubmitToDeadline` with its
  dialog loop, twice: `SubmitToDeadlineAsWritten` as the code is, and `SubmitToDeadline`
  with `getJobInfoDict` returning its dict (see "## Findings").
- `Handoff`: the submitted machine list seen from the Workers' rank decision.
- `PluginInfo`, `Text`, `Sequences`, `Wrappers`: the records of what Deadline and
  the Worker supply, Python's string operations (`split`, `join`, `strip`,
  ASCII `lower`, `os.path.basename`, `str`/`int` of integers), a filter, and
  Option/Result.

How the model represents the host:

- A render failure (`FailRender`) ends the method that raises it. Here it is
  recorded in `failure`, and the method returns.
- An uncaught Python exception, such as an `IndexError`, is recorded as a
  `PythonError`.
- Deadline's getters are the fields of a `PluginInfo` record. An entry read "with
  default" is an `Option`.
- The Worker's name, its local addresses, its GPU affinity, its render thread and
  its own environment form a `WorkerHost` record.
- On the submitter side, these are all inputs: the Nuke session, the user's answers,
  the IP classifier of `ipaddress.ip_address`, and each CopyCat node's
  `dataDirectory`.

Behaviour modelled as the code has it:

- The world size a Worker exports is the raw number of comma-separated fields, empty
  fields included.
- A Worker listed several times takes the index of the last matching entry (the
  loop has no `break`).
- A Worker that matches neither the main machine nor any entry keeps rank 0, and so
  shares it with the main machine (`Topology.UnlistedWorkerTakesRankZero`).
- The submitter's own world-size knob counts only the non-blank entries
  (`setWorldSize`), but the Worker does not read that knob: it uses the raw field count.

## Model

| member | source | states |
|---|---|---|
| Topology.ScanForRank | plugin/CopyCat/CopyCat.py:270-276 | the rank loop leaves the index of the last entry whose stripped, lower-cased name is this machine's, or 0; either way below the field count |
| Topology.ResolveTopology | plugin/CopyCat/CopyCat.py:247-280 | the body of `SetupCopyCatEnv` computes exactly the decision `CopyCatEnv`: failure on a main-machine address mismatch, otherwise the six values |
| Topology.EnvironmentOf | plugin/CopyCat/CopyCat.py:282-287 | exactly the six `COPYCAT_*` variables are exported |
| Topology.SixWrites | plugin/CopyCat/CopyCat.py:282-287 | the six writes, one after another, leave the environment with exactly `EnvironmentOf` added |
| Topology.LastIndexIsLast | plugin/CopyCat/CopyCat.py:273-276 | the index found matches and no later entry does; -1 exactly when nothing matches |
| Topology.NonMainRank | plugin/CopyCat/CopyCat.py:257-276 | a non-main Worker succeeds with the index of the last matching entry, or 0 when none matches, always below the field count |
| Topology.MainWorkerIpCheck | plugin/CopyCat/CopyCat.py:249-280 | the main machine keeps rank 0 and fails exactly when its local address is not MainMachineIP, with the fixed message |
| Topology.EnvironmentOnSuccess | plugin/CopyCat/CopyCat.py:253-287 | on success the main address is MainMachineIP, port and sync interval default to 3000 and 1, and the world size is the comma count plus one, whatever WorldSize said |
| Topology.EnvironmentReadBack | plugin/CopyCat/CopyCat.py:282-287 | the exported texts read back as the decided addresses, rank, world size, port and sync interval |
| Topology.RankIsListPosition | plugin/CopyCat/CopyCat.py:257-276 | with distinct names and the main machine first, the Worker named by entry i gets rank i |
| Topology.UnlistedWorkerTakesRankZero | plugin/CopyCat/CopyCat.py:257-287 | a Worker matching neither the main machine nor any entry succeeds with rank 0 |
| GpuSelection.PartitionByAffinity | plugin/CopyCat/CopyCat.py:443-450 | the loop splits the request into the GPUs inside and outside the affinity, each in request order |
| GpuSelection.KeptAndDropped | plugin/CopyCat/CopyCat.py:443-450 | a GPU is kept iff requested and allowed, dropped iff requested and not allowed; together they are a permutation of the request |
| GpuSelection.GpuSelectionOutcomes | plugin/CopyCat/CopyCat.py:426-478 | the five outcomes: [] without UseGpu; the allowed requested GPUs in request order, failing iff none is allowed; the affinity list; the split request; ["0"] |
| GpuSelection.SelectionWithinAffinity | plugin/CopyCat/CopyCat.py:439-452 | under an affinity override every GPU handed on is one the Worker has affinity for |
| GpuSelection.SelectionCommaFree | plugin/CopyCat/CopyCat.py:426-478 | no selected GPU name contains a comma |
| GpuSelection.PartialAffinityExample | plugin/CopyCat/CopyCat.py:441-454 | request 0,1,2 on a Worker with affinity 1,2 gives ["1","2"] and no failure |
| GpuSelection.NoAffinityExample | plugin/CopyCat/CopyCat.py:441-454 | request 5 on the same Worker gives no GPU and the affinity failure |
| CommandLine.FinalGpus | plugin/CopyCat/CopyCat.py:409-412 | with the GPU on and more than one GPU selected, the list becomes the thread's own GPU; otherwise it is unchanged |
| CommandLine.RenderPlanFailsOnlyPastTheList | plugin/CopyCat/CopyCat.py:409-411 | the argument vector fails (IndexError) exactly when narrowing with a thread number past the selected list |
| CommandLine.ArgumentsReadBack | plugin/CopyCat/CopyCat.py:395-422 | the vector reads back as `-V 2`, `--cont` iff ContinueOnError, `-F 1`, `-X` node, `--gpu` iff UseGpu, the thread's device only when several GPUs were selected, and the scene last |
| CommandLine.DeviceListMatchesArguments | plugin/CopyCat/CopyCat.py:407-419 | EDDY_DEVICE_LIST is the narrowed device also on the command line, or the whole selection, and splits back into the final list |
| CommandLine.NarrowedDevice | plugin/CopyCat/CopyCat.py:409-419 | a narrowed render exports the thread's GPU and also passes it on the command line |
| CommandLine.CpuRender | plugin/CopyCat/CopyCat.py:395-422 | without the GPU the vector cannot fail, carries no GPU option and the device list is "" |
| LibPath.FilterSegments | plugin/CopyCat/CopyCat.py:93-97 | the loop keeps, in order, exactly the segments not containing "Deadline" |
| LibPath.Scrub | plugin/CopyCat/CopyCat.py:89-103 | the value written: nothing for an unset or empty variable, else the kept segments joined by ':' or "" |
| LibPath.ScrubKeepsExactly | plugin/CopyCat/CopyCat.py:89-103 | a segment survives iff it is a segment of the old value without "Deadline"; the written value splits back into exactly the kept segments |
| LibPath.KeptSegmentsColonFree | plugin/CopyCat/CopyCat.py:91-101 | no kept segment contains ':' |
| LibPath.UnsetOrEmptyUntouched | plugin/CopyCat/CopyCat.py:90-91 | nothing is written iff the variable is unset or empty |
| LibPath.ScrubIdempotent | plugin/CopyCat/CopyCat.py:89-103 | scrubbing the scrubbed value writes it back unchanged, or nothing when it is empty |
| LibPath.SingleDeadlineDirectory | plugin/CopyCat/CopyCat.py:98-103 | a single Deadline directory becomes "", which is still written |
| LibPath.MiddleDirectoryRemoved | plugin/CopyCat/CopyCat.py:92-100 | a:Deadline-dir:b becomes a:b |
| LibPath.ScrubAllEffect | plugin/CopyCat/CopyCat.py:107-121 | after the five scrubs each listed variable holds its scrubbed value or is as before, and every other variable is as before |
| LibPath.ScrubAllKeys | plugin/CopyCat/CopyCat.py:107-121 | the variables present afterwards are the old ones plus the scrubbed ones that were written |
| LibPath.ScrubAllIdempotent | plugin/CopyCat/CopyCat.py:107-121 | scrubbing the process environment twice is scrubbing it once |
| Handshake.ReadyForInputCommand | plugin/CopyCat/CopyCat.py:502-503 | the statement makes Nuke print exactly the marker the ready handler listens for |
| Handshake.PopupBeforeCancel | plugin/CopyCat/CopyCat.py:74-83 | on a running Nuke, a popup in the same pass as a cancel request fails with the popup's message |
| Handshake.ReadyExactly | plugin/CopyCat/CopyCat.py:71-87 | the wait ends ready after k passes iff the first k passes are quiet (Nuke running, no popup, no cancel) and the ready line is first seen in pass k |
| Handshake.FailureCause | plugin/CopyCat/CopyCat.py:71-87 | a failed wait failed in the first non-quiet pass, before any ready line, with Nuke's exit message, else the popup's message, else the cancel message |
| Handshake.FailingFails | plugin/CopyCat/CopyCat.py:71-87 | conversely, a first non-quiet pass before any ready line fails the wait with Nuke's exit message, else the popup's message, else the cancel message |
| Handshake.ExitBeforeEverything | plugin/CopyCat/CopyCat.py:74-83 | a pass on an exited Nuke fails with the exit message, whatever ready line, popup or cancel request the same pass holds |
| Handshake.ProgressPercent | plugin/CopyCat/CopyCat.py:486-490 | a percentage exists iff the total is not 0, and then it is current/total of 100 |
| Handshake.ProgressExamples | plugin/CopyCat/CopyCat.py:486-490 | frame 10 of 40 is 25%, 40 of 40 is 100%, a total of 0 sets nothing |
| Handshake.FrameProgressOfPrinted | plugin/CopyCat/CopyCat.py:486-490 | the groups of a printed `Frame N (c of t)` line give the percentage of c and t |
| Plugin.CopyCatPlugin.SetupCopyCatEnv | plugin/CopyCat/CopyCat.py:247-288 | on an address mismatch the render fails and no variable is set; otherwise the process environment gains exactly the six decided variables |
| Plugin.CopyCatPlugin.ExportCopyCatVars | plugin/CopyCat/CopyCat.py:282-287 | the six writes add exactly `EnvironmentOf` of the decided values |
| Plugin.CopyCatPlugin.ScrubLibPath | plugin/CopyCat/CopyCat.py:89-105 | the process environment becomes `ScrubInto` of the old one for the Worker's value of the variable |
| Plugin.CopyCatPlugin.ScrubLibPaths | plugin/CopyCat/CopyCat.py:107-121 | the five search paths are scrubbed in order |
| Plugin.CopyCatPlugin.WaitForProcess | plugin/CopyCat/CopyCat.py:71-87 | the flush before the write may already raise the flag; the ready command is written once; the outcome is `Wait` of the polls from that flag; a failure (exit, popup, cancel) fails the render; on readiness the flag is lowered again |
| Plugin.CopyCatPlugin.constructor | plugin/CopyCat/CopyCat.py:179-184 | a plugin starts with the job's info and Worker, an empty process environment, no failure, warning, progress, status or stdin |
| Plugin.CopyCatProcess.constructor | plugin/CopyCat/CopyCat.py:290-314 | the process starts not ready (the class attribute), tied to its plugin and its scene file |
| Plugin.CopyCatProcess.HandleReadyForInput | plugin/CopyCat/CopyCat.py:493-494 | the handler raises the ready flag |
| Plugin.CopyCatProcess.ResetReadyForInput | plugin/CopyCat/CopyCat.py:499-500 | the flag is lowered |
| Plugin.CopyCatProcess.HandleError | plugin/CopyCat/CopyCat.py:480-484 | the render fails with the text the pattern matched unless ContinueOnError, when only the fixed warning is logged |
| Plugin.CopyCatProcess.HandleProgress | plugin/CopyCat/CopyCat.py:486-491 | progress is set from the groups only when the total is not 0; the status is always the matched line |
| Plugin.CopyCatProcess.GetGpuOverrides | plugin/CopyCat/CopyCat.py:426-478 | the loop-and-branch code returns the `GpuOverrides` decision with its warnings logged, or fails the render |
| Plugin.CopyCatProcess.RenderArgument | plugin/CopyCat/CopyCat.py:395-424 | the command line is the space-joined `RenderPlan` vector and EDDY_DEVICE_LIST its device list; a failed GPU selection or an IndexError sets nothing |
| Plugin.CopyCatProcess.FinishArguments | plugin/CopyCat/CopyCat.py:405-424 | the appends after the GPU selection produce the `RenderPlan` vector and device list |
| MachineOrder.RemoveFirstAt | customSubmmiter/SubmitNukeCopyCat.py:240 | `remove` takes out exactly the first occurrence, keeping the rest in order |
| MachineOrder.MoveToFrontShape | customSubmmiter/SubmitNukeCopyCat.py:237-241 | an absent main machine leaves the list unchanged; a present one comes first, the others keep their order, and the result is a permutation |
| MachineOrder.MoveToFrontIdempotent | customSubmmiter/SubmitNukeCopyCat.py:237-241 | reordering again changes nothing |
| MachineOrder.NonBlankCountBound | customSubmmiter/SubmitNukeCopyCat.py:245-248 | the world size is at most the number of fields, and equal iff no field is blank |
| MachineOrder.EmptyListWorldSize | customSubmmiter/SubmitNukeCopyCat.py:245-248 | an empty list counts 0 |
| MachineOrder.BlankEntryNotCounted | customSubmmiter/SubmitNukeCopyCat.py:245-248 | a blank entry between two machines is not counted: 3 fields, world size 2 |
| MachineOrder.WorldSizeOfWrittenList | customSubmmiter/SubmitNukeCopyCat.py:242-248 | the list the reorder writes, read back by `setWorldSize`, counts every machine |
| DeadlineJson.EnvelopeRoundTrip | customSubmmiter/SubmitNukeCopyCat.py:352-358 | an ok envelope yields its result; a failed one raises with its message |
| DeadlineJson.UnwrapSucceedsExactly | customSubmmiter/SubmitNukeCopyCat.py:342-358 | a value is returned iff the answer is an object with a truthy `ok` and a `result`, and it is that `result` |
| DeadlineJson.FalsyOkRaises | customSubmmiter/SubmitNukeCopyCat.py:352-356 | a falsy `ok` always raises, carrying `result` when it is a string |
| Submission.SceneRootNameIsFileName | customSubmmiter/SubmitNukeCopyCat.py:302-309 | "untittled" for "Root", otherwise a '/'-free tail of the path, preceded by '/' when shorter |
| Submission.SceneRootNameOfSavedScript | customSubmmiter/SubmitNukeCopyCat.py:302-309 | a script saved as dir/name is named name |
| Submission.BasenameAfterSlash | customSubmmiter/SubmitNukeCopyCat.py:309 | the basename of dir/name is name |
| Submission.PluginFieldsDerivation | customSubmmiter/SubmitNukeCopyCat.py:268-289 | GpuOverride is the chosen GPU only with UseSpecificGpu, else 0; the list, main machine and address are passed verbatim; ContinueOnError is False; the version splits back into major and minor |
| Submission.VersionReadBack | customSubmmiter/SubmitNukeCopyCat.py:277 | the version text `major.minor` splits back into the two numbers |
| Submission.FramesRangeReadBack | customSubmmiter/SubmitNukeCopyCat.py:259 | the frame range is `1-` followed by the number of machines |
| Submission.JobFieldsDerivation | customSubmmiter/SubmitNukeCopyCat.py:252-266 | the job info has exactly its ten entries, with the output directory and the priority |
| Submission.JobFieldsAccepted | customSubmmiter/SubmitNukeCopyCat.py:443-445 | a filled job info dict passes the `if not jobInfo` gate |
| Submission.PluginFieldsNonEmpty | customSubmmiter/SubmitNukeCopyCat.py:447-450 | the plugin info is never empty, so its gate always passes |
| Submission.AsWrittenNeverSubmits | customSubmmiter/SubmitNukeCopyCat.py:250-266 | as written, the job-info gate cancels every submission |
| Submission.CorrectedSubmitsWithOutput | customSubmmiter/SubmitNukeCopyCat.py:261-266 | returning the dict, the gate passes iff the node names an output directory, which the dict carries |
| Submission.VersionGate | customSubmmiter/SubmitNukeCopyCat.py:395-398 | a version triple is refused iff it is below 14.1 in tuple order, whatever the release |
| Submission.AddressGateExactly | customSubmmiter/SubmitNukeCopyCat.py:425-439 | the address gate passes iff the address is non-empty and of the chosen family; an empty one is refused before it is classified |
| Submission.SubmittedExactly | customSubmmiter/SubmitNukeCopyCat.py:376-453 | with `getJobInfoDict` corrected, a job is submitted iff every gate passes, in their order |
| Submission.AsWrittenNeverSubmitted | customSubmmiter/SubmitNukeCopyCat.py:376-453 | as written, no submission is ever made; one that passes the address gate stops with the job-info cancel message last |
| Submission.AddressGateNeverSubmits | customSubmmiter/SubmitNukeCopyCat.py:425-439 | the address gate only stops or crashes a submission |
| Submission.SubmittedInfo | customSubmmiter/SubmitNukeCopyCat.py:441-453 | a submitted job carries the job and plugin info of the reordered knobs |
| Submission.SubmitOrderedInfo | customSubmmiter/SubmitNukeCopyCat.py:425-453 | after the reorder, a job that passes the gates carries exactly the job and plugin info of the knobs |
| Submission.SubmittedListShape | customSubmmiter/SubmitNukeCopyCat.py:418-421 | the submitted list is a permutation of the copycat group, main machine first, names as distinct as before, with one task per field |
| Submission.OrderedListShape | customSubmmiter/SubmitNukeCopyCat.py:235-243 | the reordered list text splits back into the reordered machines |
| Submission.MovedListShape | customSubmmiter/SubmitNukeCopyCat.py:235-243 | a list reordered around a listed main machine splits back into itself and starts with the main machine |
| Submission.DistinctAfterMove | customSubmmiter/SubmitNukeCopyCat.py:239-241 | moving an entry to the front keeps the names distinct |
| Handoff.SubmittedRanksFollowList | plugin/CopyCat/CopyCat.py:257-276 | on the Workers, the machine named by entry i of the submitted list trains with rank i, and the main machine with rank 0 |
| Handoff.SubmittedMainMachine | customSubmmiter/SubmitNukeCopyCat.py:279 | the submitted plugin info names the main machine the user chose |
| Handoff.ListedRank | plugin/CopyCat/CopyCat.py:257-276 | a list starting with the main machine with distinct names ranks by position |
| Dialog.MoveToFrontOfFirst | customSubmmiter/SubmitNukeCopyCat.py:163-164 | `initUI`'s reorder with the first machine selected changes nothing |
| Dialog.CopyCatDialog.constructor | customSubmmiter/SubmitNukeCopyCat.py:47-206 | the dialog starts with `initUI`'s knob values and empty dicts |
| Dialog.CopyCatDialog.GetMachinesInOrder | customSubmmiter/SubmitNukeCopyCat.py:235-243 | with machines listed, the main machine is moved to the front in place and the list knob becomes the join; with none nothing changes |
| Dialog.CopyCatDialog.SetWorldSize | customSubmmiter/SubmitNukeCopyCat.py:245-248 | the world-size knob becomes the non-blank count of the list knob |
| Dialog.CopyCatDialog.ShowDialog | customSubmmiter/SubmitNukeCopyCat.py:324-326 | accepted with the user's knob values, or closed |
| Dialog.CopyCatDialog.GetJobInfoDictAsWritten | customSubmmiter/SubmitNukeCopyCat.py:250-266 | the dict is filled, the message shown on a missing output directory, and None is returned either way |
| Dialog.CopyCatDialog.GetJobInfoDict | customSubmmiter/SubmitNukeCopyCat.py:250-266 | corrected: the dict is filled and returned when an output directory is set; otherwise the message is shown and None returned |
| Dialog.CopyCatDialog.GetPluginInfo | customSubmmiter/SubmitNukeCopyCat.py:268-289 | the plugin info entries are written over the dict, which is returned |
| Dialog.SubmitToDeadlineAsWritten | customSubmmiter/SubmitNukeCopyCat.py:376-453 | as written, the gates, the dialog loop and the reorder question end exactly as `SubmitAsWritten` says, and never in a submitted job |
| Dialog.SubmitOrderedDialogAsWritten | customSubmmiter/SubmitNukeCopyCat.py:425-453 | as written, the address gate and then the job-info gate, which always cancels, end as `SubmitOrderedAsWritten` says |
| Dialog.SubmitToDeadline | customSubmmiter/SubmitNukeCopyCat.py:376-453 | corrected: the gates, the dialog loop and the reorder question end exactly as `Submit` says |
| Dialog.SubmitOrderedDialog | customSubmmiter/SubmitNukeCopyCat.py:425-453 | corrected: the address, job-info and plugin-info gates end as `SubmitOrdered` says |

## Left out

- Local address discovery (`get_local_ipv4` / `get_local_ipv6`, and `get_ip` / `get_ipv6` in the submitter) uses sockets. The result is an input: `WorkerHost.localIpv4/localIpv6` and `Session.mainMachineIpLookup`.
- The grammar of `ipaddress.ip_address` is an abstract classifier parameter (IPv4, IPv6, not an address).
- `prepForOFX` runs `id` and creates directories: process and file-system calls.
- `EndJob` stops a process with a timeout.
- `PreRenderTasks` / `PostRenderTasks` do path mapping through `RepositoryUtils` and delete files. The scene file is a constructor input of `CopyCatProcess`.
- `RenderExecutable` and `NukeSetup` parse the version as a float and fall back between keys. This is float arithmetic and `str(float)` formatting.
- Callback registration, `Cleanup`, `InitializeProcess`, `RenderCopyCat`, `WritePython`, `LogInfo` and `print` are host-framework plumbing. They decide nothing.
- Stdout dispatch is left out: which pattern wins, and whether it is a search or a match, is decided by Deadline. The handlers take the matched line and groups as inputs.
- Each pass of the poll loop is one `Poll` observation. Its fields are, in the order the pass looks: the exit message of `VerifyMonitoredManagedProcess`, whether the flush ran the ready handler, the popup message and the cancel flag. The flush before the ready command is written is the `staleReadyLine` input of `WaitForProcess`.
- Plugin.CopyCatPlugin.WaitForProcess: the wording of `VerifyMonitoredManagedProcess`'s exit failure is Deadline's, so it is an input (`exitMessage`). The other handlers a flush may run (error, progress) are not sequenced inside the loop, and `SystemUtils.Sleep` is left out.
- Plugin.CopyCatPlugin.WaitForProcess: the observations are a finite sequence. The outcome `StillWaiting` stands for a loop that, in the source, would go on polling.
- Handshake.ProgressPercent: the percentage is an exact real, not a rounded double.
- The `gpusPerTask > 0` branches of `GetGpuOverrides` are left out, because `gpusPerTask` is the constant 0.
- `str.lower` is modelled on ASCII letters only. Host names are ASCII.
- CommandLine.CommandText: the command line is `' '.join` of the vector. It cannot be split back when the node name or the scene path holds a space, so the round trip is stated on the vector (`ArgumentsReadBack`).
- The Nuke UI is left out: knob construction beyond the values `initUI` sets, the `knobChanged` callbacks and the machine-list browser (`GetMachineListFromDeadline`). The callbacks that fire while the modal dialog is open are not sequenced; the knob values the user leaves are an input of `ShowDialog`.
- Dialog.CopyCatDialog.ShowDialog: keeps the module-level `machines` list unchanged. In the source, every change of the main-machine knob runs `getMachinesInOrder` (SubmitNukeCopyCat.py:229-230), which reorders that list in place. So the submitted order depends on the history of picks: from [A,B,C], picking B and then C submits "C,B,A", where the model gives "C,A,B" (`MoveToFront` of the original list).
- `CallDeadlineCommand` / `GetDeadlineCommand`, `getSubbmitionInfo`, `getCopyCatMachines`, `connect_to_api` and `SubmitJob` are subprocess and web calls. The Workers of the copycat group are an input; `Submitted` stands for the call to `SubmitJob`.
- `nuke.scriptSave` of a modified script is a file write with no effect on the outcome.
- `getNukeVersion`'s defaults (6, 0, 0) are left out. The version triple is an input of the session.
- Client/menu.py only registers a menu entry.
- Submission.Submit: models `getJobInfoDict` returning its dict, which the code does not do. `SubmitAsWritten` is the code as it is.
- Submission.SubmitOrdered: the same corrected job-info gate; `SubmitOrderedAsWritten` is the code as it is.
- Submission.SubmittedExactly: characterises the corrected `Submit`; as written nothing is submitted (`AsWrittenNeverSubmitted`).
- Dialog.CopyCatDialog.GetJobInfoDict: returns the dict where the code returns `None`; `GetJobInfoDictAsWritten` is the code as it is.
- Dialog.SubmitToDeadline: calls the corrected `GetJobInfoDict`; `SubmitToDeadlineAsWritten` is the code as it is.
- Dialog.SubmitOrderedDialog: the same correction; `SubmitOrderedDialogAsWritten` is the code as it is.
- Handoff.SubmittedRanksFollowList: starts from a job submitted by the corrected `Submit`, since as written no job reaches the Workers from this submitter.
- Text.Basename: splits on '/' only, as POSIX `os.path.basename` does. Nuke's root names are taken as '/'-separated paths (Nuke reports script paths with '/' separators); the Windows `ntpath` variant, which also splits on '\\' and after a drive colon, is not modelled.

## Findings

| source | as written | input that shows it | evidently intended | confidence | as-written member | corrected member |
|---|---|---|---|---|---|---|
| customSubmmiter/SubmitNukeCopyCat.py:250-266 | `getJobInfoDict` fills `self._jobInfo` but has no `return` after the output directory is set, so it returns `None`, and `SubmitToDeadline` then cancels with "JobInfo dict for CopyCat are not generated"; `Dialog.SubmitToDeadlineAsWritten` follows the whole flow as written | any submission whose CopyCat node has a `dataDirectory`, e.g. `/train/out` | `return self._jobInfo` at the end, so a job with an output directory is submitted | not executed | Submission.AsWrittenNeverSubmitted | Submission.CorrectedSubmitsWithOutput |
