/** The container daemon as the facade sees it: the JSON records it returns,
    the replies (response or fault) it gives, and the requests it receives. */
module DaemonApi {
  import opened Envelopes

  /** The outcome of one daemon request: the decoded response, or a fault
      carrying the HTTP status code the client attached (if any) and its message. */
  datatype Reply<+T> = Ok(response: T) | Fault(statusCode: Option<int>, message: string)

  /** One port mapping of a listed container, passed through untouched. */
  datatype Port = Port(ip: Option<string>, privatePort: nat, publicPort: Option<nat>, protocol: string)

  /** One entry of the container listing (`Id`, `Names`, `Image`, `State`, `Status`, `Created`, `Ports`). */
  datatype RawContainer = RawContainer(
    id: string,
    names: seq<string>,
    image: string,
    state: string,
    status: string,
    created: int,
    ports: seq<Port>)

  /** The `State` object of a container inspection. */
  datatype RawState = RawState(
    status: string,
    running: bool,
    paused: bool,
    restarting: bool,
    exitCode: int,
    startedAt: string,
    finishedAt: string)

  /** The parts of a container inspection the facade reads (`Id`, `Name`, `State`). */
  datatype RawInspect = RawInspect(id: string, name: string, state: RawState)

  /** One entry of the network listing. */
  datatype RawNetwork = RawNetwork(id: string, name: string, driver: string, scope: string, created: string)

  /** `cpu_usage`: cumulative container CPU time and the optional per-core list. */
  datatype CpuUsage = CpuUsage(totalUsage: Option<nat>, percpuUsage: Option<seq<nat>>)

  /** `cpu_stats` / `precpu_stats`: one CPU accounting sample. */
  datatype CpuStats = CpuStats(cpuUsage: Option<CpuUsage>, systemCpuUsage: Option<nat>, onlineCpus: Option<nat>)

  /** `memory_stats`: bytes in use and the byte limit. */
  datatype MemoryStats = MemoryStats(usage: Option<nat>, limit: Option<nat>)

  /** One non-streaming statistics response: the current sample, the previous
      sample and the memory accounting, each possibly missing. */
  datatype StatsSnapshot = StatsSnapshot(
    cpuStats: Option<CpuStats>,
    precpuStats: Option<CpuStats>,
    memoryStats: Option<MemoryStats>)

  /** A round trip to the daemon, as recorded in a call trace. */
  datatype Call =
    | PingCall
    | ListContainersCall(all: bool)
    | InspectCall(id: string)
    | StatsCall(id: string)
    | StartCall(id: string)
    | StopCall(id: string)
    | RestartCall(id: string)
    | ListNetworksCall

  /** The reply the daemon gives to each kind of request, fixed for the
      duration of one facade operation. */
  datatype Daemon = Daemon(
    ping: Reply<()>,
    containers: Reply<seq<RawContainer>>,
    inspect: Reply<RawInspect>,
    stats: Reply<StatsSnapshot>,
    start: Reply<()>,
    stop: Reply<()>,
    restart: Reply<()>,
    networks: Reply<seq<RawNetwork>>)
}
