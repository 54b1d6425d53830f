/**
 * The submitter's job description and its gates: the job and plugin info entries
 * `getJobInfoDict` and `getPluginInfo` derive from the dialog's knobs, the scene name
 * shown as the default job name, the Nuke version and main-machine address checks of
 * `SubmitToDeadline`, and the order in which they stop a submission.
 */
module Submission {
  import opened Wrappers
  import opened Text
  import opened Sequences
  import opened MachineOrder
  import opened Topology

  /** A value of a job or plugin info entry. */
  datatype InfoValue = Text(s: string) | Number(n: int) | Flag(b: bool)

  /** The knob values of the dialog, as the user left them. */
  datatype Knobs = Knobs(
    jobName: string, comment: string, department: string,
    pool: string, secondaryPool: string, group: string, priority: int,
    copyCatNode: string,
    mainMachine: string, mainMachineIp: string, useIpv6: bool,
    port: int, syncInterval: int, worldSize: int, machineList: string,
    useGpu: bool, chooseGpu: int, useSpecificGpu: bool)

  const UnsavedMessage := "The Nuke script must be saved before it can be submitted to Deadline."
  const VersionMessage := "Your version is too low!\nPlease Use Nuke 14.1 or higer vresion"
  const NoNodeMessage := "Please select a CopyCat node"
  const NoIpMessage := "Please provide main machine IP"
  const Ipv6Message := "Please provide main machine IPv6 adderss"
  const Ipv4Message := "Please provide main machine IPv4 address"
  const NoOutputMessage := "No output directory in CopyCat node provided!\nCanceling submission..."
  const NoJobInfoMessage := "JobInfo dict for CopyCat are not generated. The submission has been canceled."
  const NoPluginInfoMessage := "Plugin dict for CopyCat are not generated. The submission has been canceled."
  const IndexErrorMessage := "IndexError: list index out of range"

  /** The name of an unsaved script. */
  const UnsavedRootName := "Root"

  // ---------------------------------------------------------------------------
  // Scene name
  // ---------------------------------------------------------------------------

  /** `getSceneRootName`: "untittled" for an unsaved script, else the file name of its path. */
  function SceneRootName(rootName: string): string {
    if rootName == UnsavedRootName then "untittled" else Basename(rootName)
  }

  /** The default job name is a file name: no '/', the tail of the saved script's path. */
  lemma SceneRootNameIsFileName(rootName: string)
    ensures rootName == UnsavedRootName ==> SceneRootName(rootName) == "untittled"
    ensures rootName != UnsavedRootName ==>
      var n := SceneRootName(rootName);
      && '/' !in n
      && rootName == rootName[..|rootName| - |n|] + n
      && (|n| < |rootName| ==> rootName[|rootName| - |n| - 1] == '/')
  {
  }

  /** A script saved as `dir/name` is named `name`, whatever the directory. */
  lemma {:induction false} SceneRootNameOfSavedScript(dir: string, name: string)
    requires '/' !in name && name != ""
    ensures SceneRootName(dir + "/" + name) == name
  {
    var path := dir + "/" + name;
    assert path != UnsavedRootName by {
      assert path[|dir|] == '/';
    }
    BasenameAfterSlash(dir, name);
  }

  /** The file name after the last '/'. */
  lemma {:induction false} BasenameAfterSlash(dir: string, name: string)
    requires '/' !in name
    ensures Basename(dir + "/" + name) == name
    decreases |name|
  {
    var path := dir + "/" + name;
    if |name| > 0 {
      var init := name[..|name| - 1];
      assert path[..|path| - 1] == dir + "/" + init;
      assert path[|path| - 1] == name[|name| - 1];
      BasenameAfterSlash(dir, init);
      assert name == init + [name[|name| - 1]];
    } else {
      assert path[|path| - 1] == '/';
    }
  }

  // ---------------------------------------------------------------------------
  // Job and plugin info
  // ---------------------------------------------------------------------------

  /** `f"1-{len(machines)}"`: one task per training machine. */
  function FramesRange(machineCount: nat): string {
    "1-" + NatToString(machineCount)
  }

  /** `f"{major}.{minor}"`. */
  function VersionText(major: int, minor: int): string {
    IntToString(major) + "." + IntToString(minor)
  }

  /** The entries `getJobInfoDict` writes before it looks at the output directory. */
  function JobFieldsBeforeOutput(k: Knobs, machineCount: nat): map<string, InfoValue> {
    map["Plugin" := Text("CopyCat"),
        "Name" := Text(k.jobName),
        "Comment" := Text(k.comment),
        "Department" := Text(k.department),
        "Pool" := Text(k.pool),
        "SecondaryPool" := Text(k.secondaryPool),
        "Group" := Text(k.group),
        "Frames" := Text(FramesRange(machineCount))]
  }

  /** All the entries `getJobInfoDict` writes when an output directory is set. */
  function JobFields(k: Knobs, machineCount: nat, output: string): map<string, InfoValue> {
    JobFieldsBeforeOutput(k, machineCount)["OutputDirectory" := Text(output)]["Priority" := Number(k.priority)]
  }

  /** The entries `getPluginInfo` writes. */
  function PluginFields(k: Knobs, sceneFile: string, major: int, minor: int): map<string, InfoValue> {
    map["BatchMode" := Flag(false),
        "BatchModeIsMovie" := Flag(false),
        "ContinueOnError" := Flag(false),
        "EnforceRenderOrder" := Flag(false),
        "UseGpu" := Flag(k.useGpu),
        "UseSpecificGpu" := Flag(k.useSpecificGpu),
        "GpuOverride" := Number(if !k.useSpecificGpu then 0 else k.chooseGpu),
        "SceneFile" := Text(sceneFile),
        "Version" := Text(VersionText(major, minor)),
        "MainMachine" := Text(k.mainMachine),
        "Port" := Number(k.port),
        "TrainingSlaves" := Text(k.machineList),
        "WorldSize" := Number(k.worldSize),
        "CopyCatNode" := Text(k.copyCatNode),
        "SyncInterval" := Number(k.syncInterval),
        "UseIPv6" := Flag(k.useIpv6),
        "MainMachineIP" := Text(k.mainMachineIp)]
  }

  /**
   * The plugin info carries the chosen GPU only with UseSpecificGpu (0 otherwise), the
   * Worker-side inputs verbatim, and a version text that reads back as major and minor.
   */
  lemma PluginFieldsDerivation(k: Knobs, sceneFile: string, major: nat, minor: nat)
    ensures var f := PluginFields(k, sceneFile, major, minor);
      && f["GpuOverride"] == Number(if k.useSpecificGpu then k.chooseGpu else 0)
      && f["TrainingSlaves"] == Text(k.machineList)
      && f["MainMachine"] == Text(k.mainMachine)
      && f["MainMachineIP"] == Text(k.mainMachineIp)
      && f["ContinueOnError"] == Flag(false)
      && Split(f["Version"].s, '.') == [NatToString(major), NatToString(minor)]
  {
    VersionReadBack(major, minor);
  }

  /** The version text `major.minor` splits back into the two numbers. */
  lemma VersionReadBack(major: nat, minor: nat)
    ensures Split(VersionText(major, minor), '.') == [NatToString(major), NatToString(minor)]
  {
    var v := VersionText(major, minor);
    assert v == NatToString(major) + ['.'] + NatToString(minor);
    DigitsFreeOf(NatToString(major), '.');
    DigitsFreeOf(NatToString(minor), '.');
    SplitAfterField(NatToString(major), NatToString(minor), '.');
    SplitFree(NatToString(minor), '.');
  }

  /** A run of digits holds no other character. */
  lemma DigitsFreeOf(s: string, c: char)
    requires IsDigits(s) && !IsDigit(c)
    ensures c !in s
  {
  }

  /**
   * The frame range `1-N` names one task per machine: after the `1-` prefix it reads
   * back as the number of machines.
   */
  lemma FramesRangeReadBack(machineCount: nat)
    ensures FramesRange(machineCount)[..2] == "1-"
    ensures var digits := FramesRange(machineCount)[2..];
      IsDigits(digits) && DecimalValue(digits) == machineCount
  {
    assert FramesRange(machineCount)[2..] == NatToString(machineCount);
    DecimalRoundTrip(machineCount);
  }

  /** The job info entries with an output directory: its own, and the knobs' priority. */
  lemma JobFieldsDerivation(k: Knobs, machineCount: nat, output: string)
    ensures var f := JobFields(k, machineCount, output);
      && f.Keys == {"Plugin", "Name", "Comment", "Department", "Pool", "SecondaryPool", "Group",
                    "Frames", "OutputDirectory", "Priority"}
      && f["Plugin"] == Text("CopyCat")
      && f["Frames"] == Text(FramesRange(machineCount))
      && f["OutputDirectory"] == Text(output)
      && f["Priority"] == Number(k.priority)
  {
  }

  // ---------------------------------------------------------------------------
  // The result of getJobInfoDict
  // ---------------------------------------------------------------------------

  /**
   * What `getJobInfoDict` returns AS WRITTEN: `None` on the no-output path, and also
   * `None` on the other path, where the method ends without a `return`.
   */
  function JobInfoReturnedAsWritten(k: Knobs, machineCount: nat, output: string): Option<map<string, InfoValue>> {
    if output == "" then None else None
  }

  /** What `getJobInfoDict` evidently means to return: the dict once the output is set. */
  function JobInfoReturned(k: Knobs, machineCount: nat, output: string): Option<map<string, InfoValue>> {
    if output == "" then None else Some(JobFields(k, machineCount, output))
  }

  /** `if not jobInfo`: a missing or empty dict cancels the submission. */
  predicate JobInfoAccepted(jobInfo: Option<map<string, InfoValue>>) {
    jobInfo.Some? && |jobInfo.value| > 0
  }

  /** A freshly filled job info dict passes the job-info gate. */
  lemma JobFieldsAccepted(k: Knobs, machineCount: nat, output: string)
    ensures JobInfoAccepted(Some(JobFields(k, machineCount, output)))
  {
    var f := JobFields(k, machineCount, output);
    assert "Plugin" in f.Keys;
  }

  /** A freshly filled plugin info dict is never empty, so its gate always passes. */
  lemma PluginFieldsNonEmpty(k: Knobs, sceneFile: string, major: int, minor: int)
    ensures |PluginFields(k, sceneFile, major, minor)| > 0
  {
    var f := PluginFields(k, sceneFile, major, minor);
    assert "BatchMode" in f.Keys;
  }

  /** As written, the job-info gate cancels every submission, output directory or not. */
  lemma AsWrittenNeverSubmits(k: Knobs, machineCount: nat, output: string)
    ensures !JobInfoAccepted(JobInfoReturnedAsWritten(k, machineCount, output))
  {
  }

  /** Corrected, the gate passes exactly when the CopyCat node names an output directory. */
  lemma CorrectedSubmitsWithOutput(k: Knobs, machineCount: nat, output: string)
    ensures JobInfoAccepted(JobInfoReturned(k, machineCount, output)) <==> output != ""
    ensures output != "" ==> JobInfoReturned(k, machineCount, output).value["OutputDirectory"] == Text(output)
  {
    if output != "" {
      var f := JobFields(k, machineCount, output);
      assert "Plugin" in f;
    }
  }

  // ---------------------------------------------------------------------------
  // Gates
  // ---------------------------------------------------------------------------

  /** Python's `<` on tuples of ints: lexicographic, a proper prefix being smaller. */
  predicate TupleLess(a: seq<int>, b: seq<int>)
    decreases |a|
  {
    if |a| == 0 then |b| > 0
    else if |b| == 0 then false
    else a[0] < b[0] || (a[0] == b[0] && TupleLess(a[1..], b[1..]))
  }

  const MinimumVersion: seq<int> := [14, 1]

  /** `getNukeVersion() < (14, 1)`. */
  predicate VersionTooLow(major: int, minor: int, release: int) {
    TupleLess([major, minor, release], MinimumVersion)
  }

  /** The version gate lets through exactly 14.1 and later, whatever the release. */
  lemma VersionGate(major: int, minor: int, release: int)
    ensures VersionTooLow(major, minor, release) <==> major < 14 || (major == 14 && minor < 1)
  {
    var a := [major, minor, release];
    assert a[1..] == [minor, release] && a[1..][1..] == [release];
    assert MinimumVersion[1..] == [1] && MinimumVersion[1..][1..] == [];
    assert TupleLess([release], []) == false;
    assert TupleLess([minor, release], [1]) <==> minor < 1;
  }

  /** What `ipaddress.ip_address` makes of a text; its grammar is not part of this model. */
  datatype IpKind = IPv4Address | IPv6Address | NotAnAddress

  /** How a submission ends. */
  datatype Outcome =
    | Stopped(messages: seq<string>)   // returned, after showing these messages
    | Crashed(error: string)           // an uncaught exception
    | Submitted(jobInfo: map<string, InfoValue>, pluginInfo: map<string, InfoValue>)

  /** `ValueError` of `ipaddress.ip_address` for a text that is no address. */
  function ValueErrorMessage(ip: string): string {
    "ValueError: '" + ip + "' does not appear to be an IPv4 or IPv6 address"
  }

  /** The gates before the dialog: a saved script (unless in Nuke Studio), Nuke 14.1, a CopyCat node. */
  function EntryGate(rootName: string, studio: bool, major: int, minor: int, release: int,
                     copyCatNodes: seq<string>): Option<string>
  {
    if rootName == UnsavedRootName && !studio then Some(UnsavedMessage)
    else if VersionTooLow(major, minor, release) then Some(VersionMessage)
    else if |copyCatNodes| == 0 then Some(NoNodeMessage)
    else None
  }

  /** The address gate: present, then an address at all, then of the chosen family. */
  function AddressGate(ip: string, useIpv6: bool, classify: string -> IpKind): Option<Outcome> {
    if ip == "" then Some(Stopped([NoIpMessage]))
    else if classify(ip) == NotAnAddress then Some(Crashed(ValueErrorMessage(ip)))
    else if useIpv6 && classify(ip) != IPv6Address then Some(Stopped([Ipv6Message]))
    else if !useIpv6 && classify(ip) != IPv4Address then Some(Stopped([Ipv4Message]))
    else None
  }

  /**
   * The address gate passes exactly for an address of the chosen family; an empty
   * address is refused before the text is classified at all.
   */
  lemma AddressGateExactly(ip: string, useIpv6: bool, classify: string -> IpKind)
    ensures AddressGate(ip, useIpv6, classify).None? <==>
      ip != "" && classify(ip) == (if useIpv6 then IPv6Address else IPv4Address)
    ensures ip == "" ==> AddressGate(ip, useIpv6, classify) == Some(Stopped([NoIpMessage]))
    ensures ip == "" ==> forall other: string -> IpKind ::
      AddressGate(ip, useIpv6, other) == AddressGate(ip, useIpv6, classify)
  {
  }

  // ---------------------------------------------------------------------------
  // A whole submission
  // ---------------------------------------------------------------------------

  /**
   * What Nuke and Deadline report when the menu item runs: the script's root name,
   * whether this is Nuke Studio, the version triple, the names of the selected CopyCat
   * nodes, the Workers of the copycat group and the address the lookup of the first
   * of them found (`None` when it failed).
   */
  datatype Session = Session(
    rootName: string, studio: bool,
    major: int, minor: int, release: int,
    selectedCopyCatNodes: seq<string>,
    copyCatMachines: seq<string>,
    mainMachineIpLookup: Option<string>)

  /**
   * The user's answers: the knob values when the dialog is accepted (`None`: closed)
   * and the answer to the reorder question.
   */
  datatype Answers = Answers(dialog: Option<Knobs>, reorder: bool)

  /** `mainMachine.strip().lower() != machines[0].strip().lower()`. */
  predicate MainNotFirst(k: Knobs, machines: seq<string>)
    requires |machines| > 0
  {
    Normalize(k.mainMachine) != Normalize(machines[0])
  }

  /** The machines after the reorder question has been answered yes (when it was asked). */
  function OrderedMachines(k: Knobs, machines: seq<string>): seq<string>
    requires |machines| > 0
  {
    if MainNotFirst(k, machines) then MoveToFront(machines, k.mainMachine) else machines
  }

  /** The knobs after the reorder: the machine list rewritten when the list was reordered. */
  function OrderedKnobs(k: Knobs, machines: seq<string>): Knobs
    requires |machines| > 0
  {
    if MainNotFirst(k, machines) then k.(machineList := MachineListText(OrderedMachines(k, machines))) else k
  }

  /**
   * How far a submission gets before the main machine's address is checked: halted by
   * an entry gate, the missing machine list, the closed dialog or a refused reorder,
   * or on to the address gate with the reordered knobs and the number of machines.
   */
  datatype Stage = Halted(outcome: Outcome) | Ordered(knobs: Knobs, machineCount: nat)

  /** The part of `SubmitToDeadline` up to the reorder question. */
  function DialogStage(s: Session, a: Answers): Stage {
    match EntryGate(s.rootName, s.studio, s.major, s.minor, s.release, s.selectedCopyCatNodes)
    case Some(m) => Halted(Stopped([m]))
    case None =>
      if |s.copyCatMachines| == 0 then Halted(Crashed(IndexErrorMessage))
      else if a.dialog.None? then Halted(Stopped([]))
      else if MainNotFirst(a.dialog.value, s.copyCatMachines) && !a.reorder then Halted(Stopped([]))
      else Ordered(OrderedKnobs(a.dialog.value, s.copyCatMachines),
                   |OrderedMachines(a.dialog.value, s.copyCatMachines)|)
  }

  /**
   * `SubmitToDeadline` with the job-info result corrected: the gates in their order,
   * then the job and plugin info the dialog derives.
   */
  function Submit(s: Session, a: Answers, classify: string -> IpKind, dataDirectoryOf: string -> string): Outcome {
    match DialogStage(s, a)
    case Halted(o) => o
    case Ordered(k, machineCount) =>
      SubmitOrdered(k, machineCount, s.rootName, s.major, s.minor, classify, dataDirectoryOf)
  }

  /** `SubmitToDeadline` as written, with `getJobInfoDict` returning `None` on every path. */
  function SubmitAsWritten(s: Session, a: Answers, classify: string -> IpKind, dataDirectoryOf: string -> string): Outcome {
    match DialogStage(s, a)
    case Halted(o) => o
    case Ordered(k, machineCount) =>
      SubmitOrderedAsWritten(k, machineCount, s.rootName, s.major, s.minor, classify, dataDirectoryOf)
  }

  /**
   * The gates after the reorder question as written: the job-info gate sees what
   * `getJobInfoDict` as written returns.
   */
  function SubmitOrderedAsWritten(k: Knobs, machineCount: nat, sceneFile: string, major: int, minor: int,
                                  classify: string -> IpKind, dataDirectoryOf: string -> string): Outcome
  {
    match AddressGate(k.mainMachineIp, k.useIpv6, classify)
    case Some(o) => o
    case None =>
      var output := dataDirectoryOf(k.copyCatNode);
      var jobInfo := JobInfoReturnedAsWritten(k, machineCount, output);
      if !JobInfoAccepted(jobInfo) then
        Stopped((if output == "" then [NoOutputMessage] else []) + [NoJobInfoMessage])
      else Submitted(jobInfo.value, PluginFields(k, sceneFile, major, minor))
  }

  /**
   * As written, no submission is ever made: every submission that passes the address
   * gate stops at the job-info gate, with the cancel message last.
   */
  lemma AsWrittenNeverSubmitted(s: Session, a: Answers, classify: string -> IpKind, dataDirectoryOf: string -> string)
    ensures !SubmitAsWritten(s, a, classify, dataDirectoryOf).Submitted?
    ensures var st := DialogStage(s, a);
      st.Ordered? && AddressGate(st.knobs.mainMachineIp, st.knobs.useIpv6, classify).None? ==>
        && SubmitAsWritten(s, a, classify, dataDirectoryOf).Stopped?
        && var m := SubmitAsWritten(s, a, classify, dataDirectoryOf).messages;
           |m| > 0 && m[|m| - 1] == NoJobInfoMessage
  {
    var st := DialogStage(s, a);
    if st.Halted? {
      HaltedNotSubmitted(s, a);
    } else {
      var output := dataDirectoryOf(st.knobs.copyCatNode);
      AsWrittenNeverSubmits(st.knobs, st.machineCount, output);
      AddressGateNeverSubmits(st.knobs.mainMachineIp, st.knobs.useIpv6, classify);
    }
  }

  /** A submission halted before the address gate is not a submitted job. */
  lemma HaltedNotSubmitted(s: Session, a: Answers)
    requires DialogStage(s, a).Halted?
    ensures !DialogStage(s, a).outcome.Submitted?
  {
  }

  /** The address gate only ever stops or crashes a submission. */
  lemma AddressGateNeverSubmits(ip: string, useIpv6: bool, classify: string -> IpKind)
    ensures AddressGate(ip, useIpv6, classify).Some? ==> !AddressGate(ip, useIpv6, classify).value.Submitted?
  {
  }

  /** The gates after the reorder question, and the job built from the knobs that pass them. */
  function SubmitOrdered(k: Knobs, machineCount: nat, sceneFile: string, major: int, minor: int,
                         classify: string -> IpKind, dataDirectoryOf: string -> string): Outcome
  {
    match AddressGate(k.mainMachineIp, k.useIpv6, classify)
    case Some(o) => o
    case None =>
      var output := dataDirectoryOf(k.copyCatNode);
      if output == "" then Stopped([NoOutputMessage, NoJobInfoMessage])
      else Submitted(JobFields(k, machineCount, output), PluginFields(k, sceneFile, major, minor))
  }

  /**
   * A job is submitted exactly when every gate passes: a saved script (or Studio),
   * Nuke 14.1 or later, a CopyCat node, a copycat group, the dialog accepted, the
   * reorder accepted when asked, an address of the chosen family and an output directory.
   */
  lemma SubmittedExactly(s: Session, a: Answers, classify: string -> IpKind, dataDirectoryOf: string -> string)
    ensures Submit(s, a, classify, dataDirectoryOf).Submitted? <==>
      && EntryGate(s.rootName, s.studio, s.major, s.minor, s.release, s.selectedCopyCatNodes).None?
      && |s.copyCatMachines| > 0
      && a.dialog.Some?
      && (MainNotFirst(a.dialog.value, s.copyCatMachines) ==> a.reorder)
      && var k := OrderedKnobs(a.dialog.value, s.copyCatMachines);
         && k.mainMachineIp != ""
         && classify(k.mainMachineIp) == (if k.useIpv6 then IPv6Address else IPv4Address)
         && dataDirectoryOf(k.copyCatNode) != ""
  {
    if && EntryGate(s.rootName, s.studio, s.major, s.minor, s.release, s.selectedCopyCatNodes).None?
       && |s.copyCatMachines| > 0 && a.dialog.Some?
    {
      var k := OrderedKnobs(a.dialog.value, s.copyCatMachines);
      AddressGateExactly(k.mainMachineIp, k.useIpv6, classify);
    }
  }

  /**
   * `fields` lists the Workers of `machines`, each as often as there, starting with
   * the main machine, with names as distinct as they were.
   */
  predicate ListedFromMain(fields: seq<string>, machines: seq<string>, main: string) {
    && |fields| == |machines|
    && multiset(fields) == multiset(machines)
    && |fields| > 0 && Normalize(fields[0]) == Normalize(main)
    && (DistinctNames(machines) ==> DistinctNames(fields))
  }

  /** A submitted job carries the job and plugin info of the reordered knobs. */
  lemma SubmittedInfo(s: Session, a: Answers, classify: string -> IpKind, dataDirectoryOf: string -> string)
    requires Submit(s, a, classify, dataDirectoryOf).Submitted?
    ensures |s.copyCatMachines| > 0 && a.dialog.Some?
    ensures var k := OrderedKnobs(a.dialog.value, s.copyCatMachines);
      var machines := OrderedMachines(a.dialog.value, s.copyCatMachines);
      Submit(s, a, classify, dataDirectoryOf) ==
        Submitted(JobFields(k, |machines|, dataDirectoryOf(k.copyCatNode)), PluginFields(k, s.rootName, s.major, s.minor))
  {
    assert EntryGate(s.rootName, s.studio, s.major, s.minor, s.release, s.selectedCopyCatNodes).None?;
    var k := OrderedKnobs(a.dialog.value, s.copyCatMachines);
    var machines := OrderedMachines(a.dialog.value, s.copyCatMachines);
    assert Submit(s, a, classify, dataDirectoryOf)
        == SubmitOrdered(k, |machines|, s.rootName, s.major, s.minor, classify, dataDirectoryOf);
    SubmitOrderedInfo(k, |machines|, s.rootName, s.major, s.minor, classify, dataDirectoryOf);
  }

  /** The gates after the reorder submit only the job and plugin info of the knobs. */
  lemma SubmitOrderedInfo(k: Knobs, machineCount: nat, sceneFile: string, major: int, minor: int,
                          classify: string -> IpKind, dataDirectoryOf: string -> string)
    requires SubmitOrdered(k, machineCount, sceneFile, major, minor, classify, dataDirectoryOf).Submitted?
    ensures SubmitOrdered(k, machineCount, sceneFile, major, minor, classify, dataDirectoryOf)
      == Submitted(JobFields(k, machineCount, dataDirectoryOf(k.copyCatNode)), PluginFields(k, sceneFile, major, minor))
  {
    assert AddressGate(k.mainMachineIp, k.useIpv6, classify).None?;
  }

  /**
   * The submitted machine list names the copycat group in an order that starts with the
   * main machine: it is a permutation of the group, has as many fields as the group has
   * Workers and as the job has tasks, and keeps names distinct when they were. The user
   * is taken to have left the list as the dialog wrote it.
   */
  lemma SubmittedListShape(s: Session, a: Answers, classify: string -> IpKind, dataDirectoryOf: string -> string,
                           jobInfo: map<string, InfoValue>, pluginInfo: map<string, InfoValue>)
    requires Submit(s, a, classify, dataDirectoryOf) == Submitted(jobInfo, pluginInfo)
    requires a.dialog.Some?
    requires a.dialog.value.machineList == MachineListText(s.copyCatMachines)
    requires a.dialog.value.mainMachine in s.copyCatMachines
    requires FreeOf(s.copyCatMachines, ',')
    ensures "TrainingSlaves" in pluginInfo && pluginInfo["TrainingSlaves"].Text?
    ensures var fields := Split(pluginInfo["TrainingSlaves"].s, ',');
      && ListedFromMain(fields, s.copyCatMachines, a.dialog.value.mainMachine)
      && "Frames" in jobInfo && jobInfo["Frames"] == Text(FramesRange(|fields|))
  {
    SubmittedInfo(s, a, classify, dataDirectoryOf);
    var k := OrderedKnobs(a.dialog.value, s.copyCatMachines);
    var machines := OrderedMachines(a.dialog.value, s.copyCatMachines);
    assert pluginInfo == PluginFields(k, s.rootName, s.major, s.minor);
    assert jobInfo == JobFields(k, |machines|, dataDirectoryOf(k.copyCatNode));
    TrainingSlavesEntry(k, s.rootName, s.major, s.minor);
    FramesEntry(k, |machines|, dataDirectoryOf(k.copyCatNode));
    OrderedListShape(a.dialog.value, s.copyCatMachines);
  }

  lemma FramesEntry(k: Knobs, machineCount: nat, output: string)
    ensures "Frames" in JobFields(k, machineCount, output)
    ensures JobFields(k, machineCount, output)["Frames"] == Text(FramesRange(machineCount))
  {
  }

  lemma TrainingSlavesEntry(k: Knobs, sceneFile: string, major: int, minor: int)
    ensures "TrainingSlaves" in PluginFields(k, sceneFile, major, minor)
    ensures PluginFields(k, sceneFile, major, minor)["TrainingSlaves"] == Text(k.machineList)
  {
  }

  /** The reordered list text splits back into the reordered machines, main machine first. */
  lemma OrderedListShape(k0: Knobs, machines: seq<string>)
    requires |machines| > 0
    requires k0.machineList == MachineListText(machines)
    requires k0.mainMachine in machines
    requires FreeOf(machines, ',')
    ensures var fields := Split(OrderedKnobs(k0, machines).machineList, ',');
      && fields == OrderedMachines(k0, machines)
      && ListedFromMain(fields, machines, k0.mainMachine)
  {
    if MainNotFirst(k0, machines) {
      MovedListShape(machines, k0.mainMachine);
    } else {
      SplitJoin(machines, ',');
    }
  }

  /** The list moved to the front of the main machine, written and split again. */
  lemma MovedListShape(machines: seq<string>, main: string)
    requires main in machines
    requires FreeOf(machines, ',')
    ensures var ordered := MoveToFront(machines, main);
      && Split(MachineListText(ordered), ',') == ordered
      && ListedFromMain(ordered, machines, main)
  {
    var ordered := MoveToFront(machines, main);
    MoveToFrontShape(machines, main);
    assert FreeOf(ordered, ',') by {
      forall i | 0 <= i < |ordered| ensures ',' !in ordered[i] {
        assert ordered[i] in multiset(machines);
      }
    }
    SplitJoin(ordered, ',');
    if DistinctNames(machines) {
      DistinctAfterMove(machines, FirstIndex(machines, main));
    }
  }

  /** Moving entry `k` to the front keeps the names distinct. */
  lemma DistinctAfterMove(machines: seq<string>, k: nat)
    requires k < |machines| && DistinctNames(machines)
    ensures DistinctNames([machines[k]] + machines[..k] + machines[k + 1..])
  {
    var r := [machines[k]] + machines[..k] + machines[k + 1..];
    forall i, j | 0 <= i < j < |r| ensures Normalize(r[i]) != Normalize(r[j]) {
      OriginIndex(machines, k, i);
      OriginIndex(machines, k, j);
      DistinctAt(machines, Origin(i, k), Origin(j, k));
    }
  }

  /** Two different positions of a list with distinct names hold different names. */
  lemma DistinctAt(machines: seq<string>, p: nat, q: nat)
    requires DistinctNames(machines) && p < |machines| && q < |machines| && p != q
    ensures Normalize(machines[p]) != Normalize(machines[q])
  {
    if q < p {
      assert Normalize(machines[q]) != Normalize(machines[p]);
    }
  }

  /** Where entry `i` of the reordered list was, when entry `k` moved to the front. */
  function Origin(i: nat, k: nat): nat {
    if i == 0 then k else if i <= k then i - 1 else i
  }

  lemma OriginIndex(machines: seq<string>, k: nat, i: nat)
    requires k < |machines| && i < |machines|
    ensures Origin(i, k) < |machines|
    ensures ([machines[k]] + machines[..k] + machines[k + 1..])[i] == machines[Origin(i, k)]
  {
  }
}
