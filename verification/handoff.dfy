/**
 * From the submitter to the Workers: the plugin info `SubmitToDeadline` submits is
 * what each Worker's `SetupCopyCatEnv` reads, so the reordered machine list decides
 * the ranks.
 */
module Handoff {
  import opened Wrappers
  import opened Text
  import opened PluginInfo
  import opened Topology
  import opened MachineOrder
  import opened Submission

  /**
   * With distinct, comma-free Worker names and the machine list as the dialog wrote
   * it, the Worker named by entry `i` of the submitted list trains with rank `i`; the
   * main machine, first in the list, takes rank 0 once its address checks out.
   */
  lemma SubmittedRanksFollowList(s: Session, a: Answers, classify: string -> IpKind,
                                 dataDirectoryOf: string -> string,
                                 jobInfo: map<string, InfoValue>, pluginInfo: map<string, InfoValue>,
                                 info: PluginInfo, host: WorkerHost, i: nat)
    requires Submit(s, a, classify, dataDirectoryOf) == Submitted(jobInfo, pluginInfo)
    requires a.dialog.Some?
    requires a.dialog.value.machineList == MachineListText(s.copyCatMachines)
    requires a.dialog.value.mainMachine in s.copyCatMachines
    requires Strip(a.dialog.value.mainMachine) == a.dialog.value.mainMachine
    requires FreeOf(s.copyCatMachines, ',') && DistinctNames(s.copyCatMachines)
    requires ("MainMachine", Text(info.mainMachine)) in pluginInfo.Items
    requires ("TrainingSlaves", Text(info.trainingSlaves)) in pluginInfo.Items
    requires i < |Split(info.trainingSlaves, ',')|
    requires Lower(host.slaveName) == Normalize(Split(info.trainingSlaves, ',')[i])
    requires i == 0 ==> LocalAddress(info, host) == Some(info.mainMachineIp)
    ensures CopyCatEnv(info, host).Success?
    ensures CopyCatEnv(info, host).value.rank == i
  {
    SubmittedListShape(s, a, classify, dataDirectoryOf, jobInfo, pluginInfo);
    SubmittedMainMachine(s, a, classify, dataDirectoryOf, jobInfo, pluginInfo);
    assert info.mainMachine == a.dialog.value.mainMachine;
    assert info.trainingSlaves == pluginInfo["TrainingSlaves"].s;
    ListedRank(info, host, i, s.copyCatMachines);
  }

  /** The submitted plugin info names the main machine the user chose. */
  lemma SubmittedMainMachine(s: Session, a: Answers, classify: string -> IpKind,
                             dataDirectoryOf: string -> string,
                             jobInfo: map<string, InfoValue>, pluginInfo: map<string, InfoValue>)
    requires Submit(s, a, classify, dataDirectoryOf) == Submitted(jobInfo, pluginInfo)
    requires a.dialog.Some?
    ensures "MainMachine" in pluginInfo && pluginInfo["MainMachine"] == Text(a.dialog.value.mainMachine)
  {
    SubmittedInfo(s, a, classify, dataDirectoryOf);
    var k := OrderedKnobs(a.dialog.value, s.copyCatMachines);
    MainMachineEntry(k, s.rootName, s.major, s.minor);
  }

  lemma MainMachineEntry(k: Knobs, sceneFile: string, major: int, minor: int)
    ensures PluginFields(k, sceneFile, major, minor)["MainMachine"] == Text(k.mainMachine)
  {
  }

  /** A Worker list starting with the main machine and with distinct names ranks by position. */
  lemma ListedRank(info: PluginInfo, host: WorkerHost, i: nat, machines: seq<string>)
    requires ListedFromMain(Split(info.trainingSlaves, ','), machines, info.mainMachine)
    requires DistinctNames(machines) && Strip(info.mainMachine) == info.mainMachine
    requires i < |machines|
    requires Lower(host.slaveName) == Normalize(Split(info.trainingSlaves, ',')[i])
    requires i == 0 ==> LocalAddress(info, host) == Some(info.mainMachineIp)
    ensures CopyCatEnv(info, host).Success?
    ensures CopyCatEnv(info, host).value.rank == i
  {
    RankIsListPosition(info, host, i);
  }
}
