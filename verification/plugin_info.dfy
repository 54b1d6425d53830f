/**
 * What a worker reads when the CopyCat job plugin runs: the job's plugin-info entries
 * and the facts the Deadline Worker reports about itself.
 */
module PluginInfo {
  import opened Wrappers

  /**
   * The plugin-info entries the worker reads. An entry read through a
   * `Get...WithDefault` getter is an `Option`; `None` means the entry is absent.
   */
  datatype PluginInfo = PluginInfo(
    mainMachine: string,          // MainMachine
    mainMachineIp: string,        // MainMachineIP
    useIpv6: Option<bool>,        // UseIPv6, default False
    worldSize: int,               // WorldSize
    port: Option<int>,            // Port, default 3000
    trainingSlaves: string,       // TrainingSlaves, comma-joined host names
    syncInterval: Option<int>,    // SyncInterval, default 1
    continueOnError: Option<bool>,// ContinueOnError, default False
    copyCatNode: string,          // CopyCatNode
    useGpu: Option<bool>,         // UseGpu, default False
    useSpecificGpu: Option<bool>, // UseSpecificGpu, default False
    gpuOverride: Option<string>)  // GpuOverride, default "0"

  /**
   * What the Worker itself supplies: its name, the local address found by the
   * socket lookups (`None` when the lookup failed), its GPU affinity, the render
   * thread and the environment of the Worker's own process.
   */
  datatype WorkerHost = WorkerHost(
    slaveName: string,
    localIpv4: Option<string>,
    localIpv6: Option<string>,
    overrideGpuAffinity: bool,
    gpuAffinity: seq<nat>,
    threadNumber: nat,
    processEnvironment: map<string, string>)
}
