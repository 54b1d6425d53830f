/**
 * The rank and topology decision of `SetupCopyCatEnv`: from the job's main machine,
 * its address and the comma-joined training machine list, and from this Worker's
 * name and local address, either a render failure or the six values exported as
 * `COPYCAT_*` environment variables of the training process.
 */
module Topology {
  import opened Wrappers
  import opened Text
  import opened PluginInfo

  const DefaultPort := 3000
  const DefaultSyncInterval := 1
  const MainIpMessage := "Your Main Machine IP is incorrect! Please check main machine IP!"

  /** The values of the distributed process group handed to the training process. */
  datatype CopyCatVars = CopyCatVars(
    mainAddr: string,
    rank: nat,
    localAddr: string,
    port: int,
    worldSize: nat,
    syncInterval: int)

  /** A machine-list entry as it is compared: `entry.strip().lower()`. */
  function Normalize(entry: string): string {
    Lower(Strip(entry))
  }

  /** Every entry of the machine list, normalized. */
  function Normalized(fields: seq<string>): (names: seq<string>)
    ensures |names| == |fields|
    ensures forall i :: 0 <= i < |fields| ==> names[i] == Normalize(fields[i])
  {
    seq(|fields|, i requires 0 <= i < |fields| => Normalize(fields[i]))
  }

  /** Index of the last occurrence of `name` in `names`, or -1 when there is none. */
  function LastIndex(names: seq<string>, name: string): (k: int)
    ensures -1 <= k < |names|
  {
    if |names| == 0 then -1
    else if names[|names| - 1] == name then |names| - 1
    else LastIndex(names[..|names| - 1], name)
  }

  /** The rank the loop leaves behind: the last match, or the initial 0 when nothing matched. */
  function MatchedRank(names: seq<string>, name: string): nat {
    var k := LastIndex(names, name);
    if k >= 0 then k else 0
  }

  /** The local address `SetupCopyCatEnv` asks for: IPv6 when UseIPv6, otherwise IPv4. */
  function LocalAddress(info: PluginInfo, host: WorkerHost): Option<string> {
    if info.useIpv6.GetOr(false) then host.localIpv6 else host.localIpv4
  }

  /** `str(ipAddress)`: a failed lookup returns None, which prints as "None". */
  function AddressText(ip: Option<string>): string {
    match ip
    case Some(a) => a
    case None => "None"
  }

  /** What `SetupCopyCatEnv` decides for this Worker. */
  function CopyCatEnv(info: PluginInfo, host: WorkerHost): Result<CopyCatVars, string> {
    var mainMachine := Lower(info.mainMachine);
    var fields := Split(info.trainingSlaves, ',');
    var thisMachine := Lower(host.slaveName);
    var ip := LocalAddress(info, host);
    if thisMachine == mainMachine && ip != Some(info.mainMachineIp) then
      Failure(MainIpMessage)
    else
      Success(CopyCatVars(
        info.mainMachineIp,
        if thisMachine != mainMachine then MatchedRank(Normalized(fields), thisMachine) else 0,
        AddressText(ip),
        info.port.GetOr(DefaultPort),
        |fields|,
        info.syncInterval.GetOr(DefaultSyncInterval)))
  }

  /**
   * The rank loop of `SetupCopyCatEnv`: every entry equal to this machine's name
   * (after strip and lower) overwrites the rank, since the loop has no `break`.
   */
  method ScanForRank(othermachineslist: seq<string>, thisMachine: string) returns (rank: nat)
    ensures rank == MatchedRank(Normalized(othermachineslist), thisMachine)
    ensures rank == 0 || rank < |othermachineslist|
  {
    rank := 0;
    ghost var names := Normalized(othermachineslist);
    var index := 0;
    while index < |othermachineslist|
      invariant 0 <= index <= |othermachineslist|
      invariant rank == MatchedRank(names[..index], thisMachine)
    {
      assert names[..index + 1][..index] == names[..index];
      if Normalize(othermachineslist[index]) == thisMachine {
        rank := index;
      }
      index := index + 1;
    }
    assert names[..index] == names;
  }

  /**
   * The body of `SetupCopyCatEnv` up to the environment writes: the world size is
   * corrected to the field count, and the rank loop runs without `break`.
   */
  method ResolveTopology(info: PluginInfo, host: WorkerHost) returns (r: Result<CopyCatVars, string>)
    ensures r == CopyCatEnv(info, host)
  {
    var mainmachine := Lower(info.mainMachine);
    var worldSize := info.worldSize;
    var rank: nat := 0;
    var othermachineslist := Split(info.trainingSlaves, ',');
    if worldSize != |othermachineslist| {
      worldSize := |othermachineslist|;
    }
    var ipAddress := LocalAddress(info, host);
    var thisMachine := Lower(host.slaveName);
    if thisMachine != mainmachine {
      rank := ScanForRank(othermachineslist, thisMachine);
    }
    if thisMachine == mainmachine && ipAddress != Some(info.mainMachineIp) {
      return Failure(MainIpMessage);
    }
    r := Success(CopyCatVars(info.mainMachineIp, rank, AddressText(ipAddress),
      info.port.GetOr(DefaultPort), worldSize, info.syncInterval.GetOr(DefaultSyncInterval)));
  }

  /** The `COPYCAT_*` variables, as `str()` of each value. */
  function EnvironmentOf(v: CopyCatVars): (env: map<string, string>)
    ensures env.Keys == {"COPYCAT_MAIN_ADDR", "COPYCAT_RANK", "COPYCAT_LOCAL_ADDR",
                         "COPYCAT_MAIN_PORT", "COPYCAT_WORLD_SIZE", "COPYCAT_SYNC_INTERVAL"}
  {
    map["COPYCAT_MAIN_ADDR" := v.mainAddr,
        "COPYCAT_RANK" := NatToString(v.rank),
        "COPYCAT_LOCAL_ADDR" := v.localAddr,
        "COPYCAT_MAIN_PORT" := IntToString(v.port),
        "COPYCAT_WORLD_SIZE" := NatToString(v.worldSize),
        "COPYCAT_SYNC_INTERVAL" := IntToString(v.syncInterval)]
  }

  /** Writing the six variables one after another over `e` adds exactly `EnvironmentOf(v)`. */
  lemma SixWrites(e: map<string, string>, v: CopyCatVars)
    ensures e["COPYCAT_MAIN_ADDR" := v.mainAddr]
             ["COPYCAT_RANK" := NatToString(v.rank)]
             ["COPYCAT_LOCAL_ADDR" := v.localAddr]
             ["COPYCAT_MAIN_PORT" := IntToString(v.port)]
             ["COPYCAT_WORLD_SIZE" := NatToString(v.worldSize)]
             ["COPYCAT_SYNC_INTERVAL" := IntToString(v.syncInterval)]
        == e + EnvironmentOf(v)
  {
  }

  // ---------------------------------------------------------------------------
  // Properties
  // ---------------------------------------------------------------------------

  /** `LastIndex` finds an occurrence with none after it, or reports that there is none. */
  lemma {:induction false} LastIndexIsLast(names: seq<string>, name: string)
    ensures var k := LastIndex(names, name);
      && (k >= 0 ==> names[k] == name && forall j :: k < j < |names| ==> names[j] != name)
      && (k == -1 <==> name !in names)
    decreases |names|
  {
    if |names| > 0 {
      var front := names[..|names| - 1];
      LastIndexIsLast(front, name);
      assert names == front + [names[|names| - 1]];
    }
  }

  /**
   * A Worker that is not the main machine takes the index of the LAST entry matching its
   * lower-cased name, or 0 when no entry matches; in both cases below the field count.
   */
  lemma NonMainRank(info: PluginInfo, host: WorkerHost)
    requires Lower(host.slaveName) != Lower(info.mainMachine)
    ensures CopyCatEnv(info, host).Success?
    ensures var fields := Split(info.trainingSlaves, ',');
      var me := Lower(host.slaveName);
      var rank := CopyCatEnv(info, host).value.rank;
      && rank < |fields|
      && ((exists j :: 0 <= j < |fields| && Normalize(fields[j]) == me) ==>
            Normalize(fields[rank]) == me
            && forall j :: rank < j < |fields| ==> Normalize(fields[j]) != me)
      && ((forall j :: 0 <= j < |fields| ==> Normalize(fields[j]) != me) ==> rank == 0)
  {
    LastIndexIsLast(Normalized(Split(info.trainingSlaves, ',')), Lower(host.slaveName));
  }

  /**
   * The main machine keeps rank 0, and its render fails exactly when its local address
   * differs from MainMachineIP (a failed lookup always differs).
   */
  lemma MainWorkerIpCheck(info: PluginInfo, host: WorkerHost)
    requires Lower(host.slaveName) == Lower(info.mainMachine)
    ensures CopyCatEnv(info, host).Failure? <==> LocalAddress(info, host) != Some(info.mainMachineIp)
    ensures CopyCatEnv(info, host).Failure? ==> CopyCatEnv(info, host).error == MainIpMessage
    ensures CopyCatEnv(info, host).Success? ==>
      CopyCatEnv(info, host).value.rank == 0
      && CopyCatEnv(info, host).value.localAddr == info.mainMachineIp
  {
  }

  /**
   * On success: the main address is MainMachineIP, port and sync interval default to
   * 3000 and 1, and the world size is the raw field count (one more than the number of
   * commas, empty fields included), whatever WorldSize said.
   */
  lemma EnvironmentOnSuccess(info: PluginInfo, host: WorkerHost)
    requires CopyCatEnv(info, host).Success?
    ensures var v := CopyCatEnv(info, host).value;
      && v.mainAddr == info.mainMachineIp
      && v.worldSize == Occurrences(info.trainingSlaves, ',') + 1
      && (info.port.None? ==> v.port == 3000)
      && (info.port.Some? ==> v.port == info.port.value)
      && (info.syncInterval.None? ==> v.syncInterval == 1)
      && (info.syncInterval.Some? ==> v.syncInterval == info.syncInterval.value)
      && v.rank < v.worldSize
  {
    SplitShape(info.trainingSlaves, ',');
  }

  /** The training process reading the variables back gets the decided values. */
  lemma EnvironmentReadBack(v: CopyCatVars)
    ensures var env := EnvironmentOf(v);
      && env["COPYCAT_MAIN_ADDR"] == v.mainAddr
      && env["COPYCAT_LOCAL_ADDR"] == v.localAddr
      && DecimalValue(env["COPYCAT_RANK"]) == v.rank
      && DecimalValue(env["COPYCAT_WORLD_SIZE"]) == v.worldSize
      && (forall p :: env["COPYCAT_MAIN_PORT"] == IntToString(p) ==> p == v.port)
      && (forall s :: env["COPYCAT_SYNC_INTERVAL"] == IntToString(s) ==> s == v.syncInterval)
  {
    DecimalRoundTrip(v.rank);
    DecimalRoundTrip(v.worldSize);
    forall p | EnvironmentOf(v)["COPYCAT_MAIN_PORT"] == IntToString(p) ensures p == v.port {
      IntToStringInjective(p, v.port);
    }
    forall s | EnvironmentOf(v)["COPYCAT_SYNC_INTERVAL"] == IntToString(s) ensures s == v.syncInterval {
      IntToStringInjective(s, v.syncInterval);
    }
  }

  /** The list's entries, normalized, are pairwise different. */
  predicate DistinctNames(fields: seq<string>) {
    forall i, j :: 0 <= i < j < |fields| ==> Normalize(fields[i]) != Normalize(fields[j])
  }

  /**
   * With distinct names and the main machine listed first, the Worker named by entry `i`
   * gets rank `i`: the ranks of the listed Workers are exactly 0 .. world size - 1.
   */
  lemma RankIsListPosition(info: PluginInfo, host: WorkerHost, i: nat)
    requires var fields := Split(info.trainingSlaves, ',');
      && i < |fields|
      && DistinctNames(fields)
      && Normalize(fields[0]) == Lower(info.mainMachine)
      && Lower(host.slaveName) == Normalize(fields[i])
    requires i == 0 ==> LocalAddress(info, host) == Some(info.mainMachineIp)
    ensures CopyCatEnv(info, host).Success?
    ensures CopyCatEnv(info, host).value.rank == i
  {
    var fields := Split(info.trainingSlaves, ',');
    var me := Lower(host.slaveName);
    if i > 0 {
      assert Normalize(fields[0]) != Normalize(fields[i]);
      assert me != Lower(info.mainMachine);
      var names := Normalized(fields);
      LastIndexIsLast(names, me);
      assert names[i] == me;
      var k := LastIndex(names, me);
      assert k >= i;
      assert MatchedRank(names, me) == i;
    }
  }

  /** A Worker matching neither the main machine nor any entry shares rank 0 with the main machine. */
  lemma UnlistedWorkerTakesRankZero(info: PluginInfo, host: WorkerHost)
    requires Lower(host.slaveName) != Lower(info.mainMachine)
    requires forall e :: e in Split(info.trainingSlaves, ',') ==> Normalize(e) != Lower(host.slaveName)
    ensures CopyCatEnv(info, host) == Success(CopyCatVars(
      info.mainMachineIp, 0, AddressText(LocalAddress(info, host)),
      info.port.GetOr(DefaultPort), |Split(info.trainingSlaves, ',')|,
      info.syncInterval.GetOr(DefaultSyncInterval)))
  {
    var fields := Split(info.trainingSlaves, ',');
    LastIndexIsLast(Normalized(fields), Lower(host.slaveName));
    assert forall j :: 0 <= j < |fields| ==> fields[j] in fields;
  }
}
