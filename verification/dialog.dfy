/**
 * The submitter's dialog and `SubmitToDeadline`. The dialog holds the knob values,
 * the module-level `machines` list it reorders in place, and the job and plugin info
 * dicts it fills; `SubmitToDeadline` runs the gates, the modal dialog and the reorder
 * question, then builds the job.
 */
module Dialog {
  import opened Wrappers
  import opened Text
  import opened Topology
  import opened MachineOrder
  import opened Submission

  /**
   * The knob values `initUI` sets: the scene name as job name, the copycat pool and
   * group, the first CopyCat node and the first Worker of the copycat group as main
   * machine with the address its lookup found, port 3000, sync interval 1, one Worker
   * per machine and the list of the machines.
   */
  function InitialKnobs(rootName: string, nodes: seq<string>, machines: seq<string>,
                        ipLookup: Option<string>): Knobs
  {
    Knobs(
      jobName := SceneRootName(rootName), comment := "", department := "",
      pool := "copycat", secondaryPool := "none", group := "copycat", priority := 50,
      copyCatNode := if |nodes| > 0 then nodes[0] else "",
      mainMachine := if |machines| > 0 then machines[0] else "",
      mainMachineIp := ipLookup.GetOr(""), useIpv6 := false,
      port := DefaultPort, syncInterval := DefaultSyncInterval,
      worldSize := |machines|,
      machineList := if |machines| > 0 then MachineListText(machines) else "",
      useGpu := true, chooseGpu := 0, useSpecificGpu := false)
  }

  class CopyCatDialog {
    /** The module-level `machines`: the Workers of the copycat group, reordered in place. */
    var machines: seq<string>
    var knobs: Knobs
    var jobInfo: map<string, InfoValue>
    var pluginInfo: map<string, InfoValue>
    /** The messages `nuke.message` has shown from the dialog's methods. */
    var shown: seq<string>

    /** The script's root name, which is also the scene file of the plugin info. */
    const sceneFile: string
    const versionMajor: int
    const versionMinor: int
    /** The `dataDirectory` knob of a CopyCat node ("" when the node has none). */
    const dataDirectoryOf: string -> string

    /** `__init__` and `initUI`: the knobs as `InitialKnobs` gives them, both dicts empty. */
    constructor (rootName: string, nodes: seq<string>, copyCatMachines: seq<string>,
                 ipLookup: Option<string>, major: int, minor: int, dataDirectoryOf: string -> string)
      ensures machines == copyCatMachines
      ensures knobs == InitialKnobs(rootName, nodes, copyCatMachines, ipLookup)
      ensures jobInfo == map[] && pluginInfo == map[] && shown == []
      ensures sceneFile == rootName && versionMajor == major && versionMinor == minor
      ensures this.dataDirectoryOf == dataDirectoryOf
    {
      sceneFile := rootName;
      versionMajor := major;
      versionMinor := minor;
      this.dataDirectoryOf := dataDirectoryOf;
      jobInfo := map[];
      pluginInfo := map[];
      shown := [];
      machines := copyCatMachines;
      knobs := InitialKnobs(rootName, nodes, copyCatMachines, ipLookup).(machineList := "");
      new;
      GetMachinesInOrder();
      if |copyCatMachines| > 0 {
        MoveToFrontOfFirst(copyCatMachines);
      }
    }

    /**
     * `getMachinesInOrder`: with machines listed, the main machine's first occurrence
     * moves to the front (when it is listed) and the machine-list knob becomes the
     * comma-joined list; with none, nothing changes.
     */
    method GetMachinesInOrder()
      modifies this
      ensures |old(machines)| == 0 ==> machines == old(machines) && knobs == old(knobs)
      ensures |old(machines)| > 0 ==>
        && machines == MoveToFront(old(machines), old(knobs.mainMachine))
        && knobs == old(knobs).(machineList := MachineListText(machines))
      ensures jobInfo == old(jobInfo) && pluginInfo == old(pluginInfo) && shown == old(shown)
    {
      if |machines| > 0 {
        var mainMachine := knobs.mainMachine;
        if mainMachine in machines {
          machines := RemoveFirst(machines, mainMachine);
          machines := [mainMachine] + machines;
        }
        var result := MachineListText(machines);
        knobs := knobs.(machineList := result);
      }
    }

    /** `setWorldSize`: the world-size knob becomes the number of non-blank list entries. */
    method SetWorldSize()
      modifies this
      ensures knobs == old(knobs).(worldSize := NonBlankCount(old(knobs.machineList)))
      ensures machines == old(machines) && jobInfo == old(jobInfo)
      ensures pluginInfo == old(pluginInfo) && shown == old(shown)
    {
      knobs := knobs.(worldSize := NonBlankCount(knobs.machineList));
    }

    /** The modal dialog: accepted with the user's knob values, or closed. */
    method ShowDialog(answer: Option<Knobs>) returns (success: bool)
      modifies this
      ensures success == answer.Some?
      ensures knobs == (if answer.Some? then answer.value else old(knobs))
      ensures machines == old(machines) && jobInfo == old(jobInfo)
      ensures pluginInfo == old(pluginInfo) && shown == old(shown)
    {
      success := answer.Some?;
      if success {
        knobs := answer.value;
      }
    }

    /**
     * `getJobInfoDict` as written: it fills the dict, shows a message and returns
     * `None` when the node has no output directory, and otherwise falls off its end,
     * returning `None` as well.
     */
    method GetJobInfoDictAsWritten() returns (r: Option<map<string, InfoValue>>)
      modifies this
      ensures r == JobInfoReturnedAsWritten(knobs, |machines|, dataDirectoryOf(knobs.copyCatNode))
      ensures var output := dataDirectoryOf(knobs.copyCatNode);
        && (output == "" ==> jobInfo == old(jobInfo) + JobFieldsBeforeOutput(knobs, |machines|))
        && (output != "" ==> jobInfo == old(jobInfo) + JobFields(knobs, |machines|, output))
        && shown == old(shown) + (if output == "" then [NoOutputMessage] else [])
      ensures machines == old(machines) && knobs == old(knobs) && pluginInfo == old(pluginInfo)
    {
      jobInfo := jobInfo + JobFieldsBeforeOutput(knobs, |machines|);
      var output := dataDirectoryOf(knobs.copyCatNode);
      if output == "" {
        shown := shown + [NoOutputMessage];
        return None;
      }
      jobInfo := jobInfo["OutputDirectory" := Text(output)];
      jobInfo := jobInfo["Priority" := Number(knobs.priority)];
      r := None;
    }

    /** `getJobInfoDict` returning the dict it has filled. */
    method GetJobInfoDict() returns (r: Option<map<string, InfoValue>>)
      modifies this
      ensures var output := dataDirectoryOf(knobs.copyCatNode);
        && (output == "" ==> jobInfo == old(jobInfo) + JobFieldsBeforeOutput(knobs, |machines|))
        && (output != "" ==> jobInfo == old(jobInfo) + JobFields(knobs, |machines|, output))
        && shown == old(shown) + (if output == "" then [NoOutputMessage] else [])
        && r == (if output == "" then None else Some(jobInfo))
      ensures machines == old(machines) && knobs == old(knobs) && pluginInfo == old(pluginInfo)
    {
      jobInfo := jobInfo + JobFieldsBeforeOutput(knobs, |machines|);
      var output := dataDirectoryOf(knobs.copyCatNode);
      if output == "" {
        shown := shown + [NoOutputMessage];
        return None;
      }
      jobInfo := jobInfo["OutputDirectory" := Text(output)];
      jobInfo := jobInfo["Priority" := Number(knobs.priority)];
      r := Some(jobInfo);
    }

    /** `getPluginInfo`: the plugin info entries written over the dict, which is returned. */
    method GetPluginInfo() returns (r: map<string, InfoValue>)
      modifies this
      ensures pluginInfo == old(pluginInfo) + PluginFields(knobs, sceneFile, versionMajor, versionMinor)
      ensures r == pluginInfo
      ensures machines == old(machines) && knobs == old(knobs)
      ensures jobInfo == old(jobInfo) && shown == old(shown)
    {
      pluginInfo := pluginInfo + PluginFields(knobs, sceneFile, versionMajor, versionMinor);
      r := pluginInfo;
    }
  }

  /** The first machine is already first: reordering for it changes nothing. */
  lemma MoveToFrontOfFirst(machines: seq<string>)
    requires |machines| > 0
    ensures MoveToFront(machines, machines[0]) == machines
  {
    assert [machines[0]] + machines[1..] == machines;
  }

  /** Writing entries into an empty dict gives exactly those entries. */
  lemma EmptyMerge<K, V>(m: map<K, V>)
    ensures map[] + m == m
  {
  }

  /**
   * `SubmitToDeadline`: the entry gates, the dialog, the reorder question, the address
   * gate, then the job and plugin info; the outcome is `Submit`'s.
   */
  method SubmitToDeadline(s: Session, a: Answers, classify: string -> IpKind,
                          dataDirectoryOf: string -> string)
    returns (outcome: Outcome)
    ensures outcome == Submit(s, a, classify, dataDirectoryOf)
  {
    if s.rootName == UnsavedRootName && !s.studio {
      return Stopped([UnsavedMessage]);
    }
    if VersionTooLow(s.major, s.minor, s.release) {
      return Stopped([VersionMessage]);
    }
    if |s.selectedCopyCatNodes| == 0 {
      return Stopped([NoNodeMessage]);
    }
    assert EntryGate(s.rootName, s.studio, s.major, s.minor, s.release, s.selectedCopyCatNodes).None?;
    var dialog := new CopyCatDialog(s.rootName, s.selectedCopyCatNodes, s.copyCatMachines,
                                    s.mainMachineIpLookup, s.major, s.minor, dataDirectoryOf);
    if |dialog.machines| == 0 {
      return Crashed(IndexErrorMessage);
    }
    var firstMachine := Normalize(dialog.machines[0]);
    outcome := Stopped([]);
    var success := false;
    while !success
      invariant !success ==> dialog.machines == s.copyCatMachines && dialog.shown == []
      invariant !success ==> dialog.jobInfo == map[] && dialog.pluginInfo == map[]
      invariant !success ==> dialog.sceneFile == s.rootName && dialog.versionMajor == s.major
      invariant !success ==> dialog.versionMinor == s.minor && dialog.dataDirectoryOf == dataDirectoryOf
      invariant success ==> outcome == Submit(s, a, classify, dataDirectoryOf)
      decreases if success then 0 else 1
    {
      success := dialog.ShowDialog(a.dialog);
      if !success {
        return Stopped([]);
      }
      ghost var k0 := a.dialog.value;
      if Normalize(dialog.knobs.mainMachine) != firstMachine {
        assert MainNotFirst(k0, s.copyCatMachines);
        if a.reorder {
          dialog.GetMachinesInOrder();
        } else {
          return Stopped([]);
        }
      }
      assert dialog.knobs == OrderedKnobs(k0, s.copyCatMachines);
      assert dialog.machines == OrderedMachines(k0, s.copyCatMachines);
      outcome := SubmitOrderedDialog(dialog, classify);
    }
  }

  /**
   * `SubmitToDeadline` as written: the same gates and dialog loop, with the job-info
   * gate fed by `getJobInfoDict` as written; the outcome is `SubmitAsWritten`'s, so no
   * job is ever submitted.
   */
  method SubmitToDeadlineAsWritten(s: Session, a: Answers, classify: string -> IpKind,
                                   dataDirectoryOf: string -> string)
    returns (outcome: Outcome)
    ensures outcome == SubmitAsWritten(s, a, classify, dataDirectoryOf)
    ensures !outcome.Submitted?
  {
    AsWrittenNeverSubmitted(s, a, classify, dataDirectoryOf);
    if s.rootName == UnsavedRootName && !s.studio {
      return Stopped([UnsavedMessage]);
    }
    if VersionTooLow(s.major, s.minor, s.release) {
      return Stopped([VersionMessage]);
    }
    if |s.selectedCopyCatNodes| == 0 {
      return Stopped([NoNodeMessage]);
    }
    assert EntryGate(s.rootName, s.studio, s.major, s.minor, s.release, s.selectedCopyCatNodes).None?;
    var dialog := new CopyCatDialog(s.rootName, s.selectedCopyCatNodes, s.copyCatMachines,
                                    s.mainMachineIpLookup, s.major, s.minor, dataDirectoryOf);
    if |dialog.machines| == 0 {
      return Crashed(IndexErrorMessage);
    }
    var firstMachine := Normalize(dialog.machines[0]);
    outcome := Stopped([]);
    var success := false;
    while !success
      invariant !success ==> dialog.machines == s.copyCatMachines && dialog.shown == []
      invariant !success ==> dialog.jobInfo == map[] && dialog.pluginInfo == map[]
      invariant !success ==> dialog.sceneFile == s.rootName && dialog.versionMajor == s.major
      invariant !success ==> dialog.versionMinor == s.minor && dialog.dataDirectoryOf == dataDirectoryOf
      invariant success ==> outcome == SubmitAsWritten(s, a, classify, dataDirectoryOf)
      decreases if success then 0 else 1
    {
      success := dialog.ShowDialog(a.dialog);
      if !success {
        return Stopped([]);
      }
      ghost var k0 := a.dialog.value;
      if Normalize(dialog.knobs.mainMachine) != firstMachine {
        assert MainNotFirst(k0, s.copyCatMachines);
        if a.reorder {
          dialog.GetMachinesInOrder();
        } else {
          return Stopped([]);
        }
      }
      assert dialog.knobs == OrderedKnobs(k0, s.copyCatMachines);
      assert dialog.machines == OrderedMachines(k0, s.copyCatMachines);
      outcome := SubmitOrderedDialogAsWritten(dialog, classify);
    }
  }

  /**
   * The part of the loop body after the reorder question: the address gate, the job
   * info gate and the plugin info gate.
   */
  method SubmitOrderedDialog(dialog: CopyCatDialog, classify: string -> IpKind)
    returns (outcome: Outcome)
    requires dialog.shown == [] && dialog.jobInfo == map[] && dialog.pluginInfo == map[]
    modifies dialog
    ensures outcome == SubmitOrdered(old(dialog.knobs), |old(dialog.machines)|, dialog.sceneFile,
                                     dialog.versionMajor, dialog.versionMinor, classify, dialog.dataDirectoryOf)
  {
    var ip := dialog.knobs.mainMachineIp;
    if ip == "" {
      return Stopped([NoIpMessage]);
    }
    if dialog.knobs.useIpv6 {
      var kind := classify(ip);
      if kind == NotAnAddress {
        return Crashed(ValueErrorMessage(ip));
      }
      if kind != IPv6Address {
        return Stopped([Ipv6Message]);
      }
    } else {
      var kind := classify(ip);
      if kind == NotAnAddress {
        return Crashed(ValueErrorMessage(ip));
      }
      if kind != IPv4Address {
        return Stopped([Ipv4Message]);
      }
    }
    var jobInfo := dialog.GetJobInfoDict();
    var output := dialog.dataDirectoryOf(dialog.knobs.copyCatNode);
    if output != "" {
      EmptyMerge(JobFields(dialog.knobs, |dialog.machines|, output));
      JobFieldsAccepted(dialog.knobs, |dialog.machines|, output);
    }
    if !JobInfoAccepted(jobInfo) {
      return Stopped(dialog.shown + [NoJobInfoMessage]);
    }
    var pluginInfo := dialog.GetPluginInfo();
    EmptyMerge(PluginFields(dialog.knobs, dialog.sceneFile, dialog.versionMajor, dialog.versionMinor));
    PluginFieldsNonEmpty(dialog.knobs, dialog.sceneFile, dialog.versionMajor, dialog.versionMinor);
    if |pluginInfo| == 0 {
      return Stopped([NoPluginInfoMessage]);
    }
    outcome := Submitted(jobInfo.value, pluginInfo);
  }

  /**
   * The part of the loop body after the reorder question as written: `getJobInfoDict`
   * returns `None`, so the job-info gate always cancels.
   */
  method SubmitOrderedDialogAsWritten(dialog: CopyCatDialog, classify: string -> IpKind)
    returns (outcome: Outcome)
    requires dialog.shown == [] && dialog.jobInfo == map[] && dialog.pluginInfo == map[]
    modifies dialog
    ensures outcome == SubmitOrderedAsWritten(old(dialog.knobs), |old(dialog.machines)|, dialog.sceneFile,
                                              dialog.versionMajor, dialog.versionMinor, classify, dialog.dataDirectoryOf)
  {
    var ip := dialog.knobs.mainMachineIp;
    if ip == "" {
      return Stopped([NoIpMessage]);
    }
    if dialog.knobs.useIpv6 {
      var kind := classify(ip);
      if kind == NotAnAddress {
        return Crashed(ValueErrorMessage(ip));
      }
      if kind != IPv6Address {
        return Stopped([Ipv6Message]);
      }
    } else {
      var kind := classify(ip);
      if kind == NotAnAddress {
        return Crashed(ValueErrorMessage(ip));
      }
      if kind != IPv4Address {
        return Stopped([Ipv4Message]);
      }
    }
    var jobInfo := dialog.GetJobInfoDictAsWritten();
    if !JobInfoAccepted(jobInfo) {
      return Stopped(dialog.shown + [NoJobInfoMessage]);
    }
    // `getJobInfoDict` as written never returns a dict: `getPluginInfo` and `SubmitJob` are not reached.
    assert false;
  }
}
