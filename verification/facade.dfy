/** The container control facade: seven operations, each first probing the
    daemon, then making at most one further round trip, and always answering
    with an envelope rather than a fault. */
module Facade {
  import opened Envelopes
  import opened DaemonApi
  import opened Connector
  import opened StatsDerivation

  const NotAvailable: string := "Docker not available"
  const Started: string := "Container started"
  const AlreadyStarted: string := "Container already started"
  const Stopped: string := "Container stopped"
  const AlreadyStopped: string := "Container already stopped"
  const Restarted: string := "Container restarted"
  /** The runtime's message when a listed container has no name to read. */
  const NoNameMessage: string := "Cannot read properties of undefined (reading 'replace')"
  /** The status code the daemon uses for "container already in that state". */
  const NotModified: int := 304

  /** An operation's envelope and the daemon round trips it made, in order. */
  datatype Run<+T> = Run(result: Envelope<T>, calls: seq<Call>)

  datatype ContainerSummary = ContainerSummary(
    id: string,
    name: string,
    image: string,
    state: string,
    status: string,
    created: int,
    ports: seq<Port>)

  datatype ContainerStatus = ContainerStatus(
    id: string,
    name: string,
    state: string,
    running: bool,
    paused: bool,
    restarting: bool,
    exitCode: int,
    startedAt: string,
    finishedAt: string)

  datatype NetworkSummary = NetworkSummary(id: string, name: string, driver: string, scope: string, created: string)

  /** `replace(/^\//, '')`: removes one leading '/', if there is one. */
  function StripLeadingSlash(s: string): (r: string)
    ensures |s| > 0 && s[0] == '/' ==> s == "/" + r
    ensures !(|s| > 0 && s[0] == '/') ==> r == s
  {
    if |s| > 0 && s[0] == '/' then s[1..] else s
  }

  /** Stripping undoes prefixing a name with '/', and removes only one '/'. */
  lemma StripLeadingSlashInverse(n: string)
    ensures StripLeadingSlash("/" + n) == n
    ensures |StripLeadingSlash("/" + n)| == |n|
  {
  }

  /** True when the only round trips in `calls` are liveness pings. */
  predicate OnlyPings(calls: seq<Call>) {
    forall i :: 0 <= i < |calls| ==> calls[i] == PingCall
  }

  /** The guard every operation runs first: when the probe fails, the
      "not available" envelope and no further round trip; otherwise the probe's
      ping followed by the operation's single call and its outcome. */
  function Guarded<T>(svc: Service, ping: Reply<()>, call: Call, outcome: Envelope<T>): (r: Run<T>)
    ensures !IsAvailable(svc, ping).alive ==> r.result == Failure(NotAvailable) && OnlyPings(r.calls) && |r.calls| <= 1
    ensures IsAvailable(svc, ping).alive ==> r.result == outcome && r.calls == [PingCall, call]
  {
    var probe := IsAvailable(svc, ping);
    if !probe.alive then Run(Failure(NotAvailable), probe.calls)
    else Run(outcome, probe.calls + [call])
  }

  /** A daemon fault becomes a failure carrying its message verbatim. */
  function Interpret<T, U>(reply: Reply<T>, onOk: T -> Envelope<U>): (e: Envelope<U>)
    ensures reply.Fault? ==> e == Failure(reply.message)
    ensures reply.Ok? ==> e == onOk(reply.response)
  {
    match reply
    case Ok(response) => onOk(response)
    case Fault(_, message) => Failure(message)
  }

  /** Outcome of a lifecycle call. With `already` present (start, stop), a 304
      fault is success with that message; otherwise faults are failures. */
  function Settle(reply: Reply<()>, done: string, already: Option<string>): (e: Envelope<string>)
    ensures reply.Ok? ==> e == Success(done)
    ensures reply.Fault? && already.Some? && reply.statusCode == Some(NotModified) ==> e == Success(already.value)
    ensures reply.Fault? && (already.None? || reply.statusCode != Some(NotModified)) ==> e == Failure(reply.message)
  {
    match reply
    case Ok(_) => Success(done)
    case Fault(code, message) =>
      if already.Some? && code == Some(NotModified) then Success(already.value) else Failure(message)
  }

  function Summarize(c: RawContainer): ContainerSummary
    requires |c.names| > 0
  {
    ContainerSummary(c.id, StripLeadingSlash(c.names[0]), c.image, c.state, c.status, c.created, c.ports)
  }

  /** `containers.map(...)`: one summary per listed container, in order, named
      by its first name without the leading '/'. A container with no name
      makes the whole mapping fail. */
  function SummarizeAll(cs: seq<RawContainer>): (r: Envelope<seq<ContainerSummary>>)
    ensures r.Success? <==> forall i :: 0 <= i < |cs| ==> |cs[i].names| > 0
    ensures r.Failure? ==> r.message == NoNameMessage
    ensures r.Success? ==> |r.payload| == |cs|
    ensures r.Success? ==> forall i :: 0 <= i < |cs| ==>
      && r.payload[i].id == cs[i].id
      && r.payload[i].name == StripLeadingSlash(cs[i].names[0])
      && r.payload[i].image == cs[i].image
      && r.payload[i].state == cs[i].state
      && r.payload[i].status == cs[i].status
      && r.payload[i].created == cs[i].created
      && r.payload[i].ports == cs[i].ports
  {
    if cs == [] then Success([])
    else if |cs[0].names| == 0 then Failure(NoNameMessage)
    else match SummarizeAll(cs[1..])
      case Success(rest) => Success([Summarize(cs[0])] + rest)
      case Failure(m) => Failure(m)
  }

  function StatusOf(info: RawInspect): ContainerStatus {
    ContainerStatus(
      info.id, StripLeadingSlash(info.name), info.state.status,
      info.state.running, info.state.paused, info.state.restarting,
      info.state.exitCode, info.state.startedAt, info.state.finishedAt)
  }

  function NetworkOf(n: RawNetwork): NetworkSummary {
    NetworkSummary(n.id, n.name, n.driver, n.scope, n.created)
  }

  /** `listContainers(all)`. */
  function ListContainers(svc: Service, d: Daemon, all: bool): (r: Run<seq<ContainerSummary>>)
    ensures !IsAvailable(svc, d.ping).alive ==> r.result == Failure(NotAvailable) && OnlyPings(r.calls)
    ensures IsAvailable(svc, d.ping).alive ==> r.calls == [PingCall, ListContainersCall(all)]
    ensures r.result.Success? <==>
      IsAvailable(svc, d.ping).alive && d.containers.Ok? &&
      forall i :: 0 <= i < |d.containers.response| ==> |d.containers.response[i].names| > 0
    ensures r.result.Success? ==> |r.result.payload| == |d.containers.response|
    ensures r.result.Success? ==> forall i :: 0 <= i < |r.result.payload| ==>
      && r.result.payload[i].id == d.containers.response[i].id
      && r.result.payload[i].name == StripLeadingSlash(d.containers.response[i].names[0])
    ensures IsAvailable(svc, d.ping).alive && d.containers.Fault? ==> r.result == Failure(d.containers.message)
    ensures IsAvailable(svc, d.ping).alive && d.containers.Ok? ==> r.result == SummarizeAll(d.containers.response)
  {
    Guarded(svc, d.ping, ListContainersCall(all), Interpret(d.containers, SummarizeAll))
  }

  /** `getContainerStatus(id)`; the id is passed through unvalidated. */
  function GetContainerStatus(svc: Service, d: Daemon, id: string): (r: Run<ContainerStatus>)
    ensures !IsAvailable(svc, d.ping).alive ==> r.result == Failure(NotAvailable) && OnlyPings(r.calls)
    ensures IsAvailable(svc, d.ping).alive ==> r.calls == [PingCall, InspectCall(id)]
    ensures r.result.Success? <==> IsAvailable(svc, d.ping).alive && d.inspect.Ok?
    ensures r.result.Success? ==>
      var info := d.inspect.response;
      && r.result.payload.id == info.id
      && r.result.payload.name == StripLeadingSlash(info.name)
      && r.result.payload.state == info.state.status
      && r.result.payload.running == info.state.running
      && r.result.payload.paused == info.state.paused
      && r.result.payload.restarting == info.state.restarting
      && r.result.payload.exitCode == info.state.exitCode
      && r.result.payload.startedAt == info.state.startedAt
      && r.result.payload.finishedAt == info.state.finishedAt
    ensures IsAvailable(svc, d.ping).alive && d.inspect.Fault? ==> r.result == Failure(d.inspect.message)
  {
    Guarded(svc, d.ping, InspectCall(id), Interpret(d.inspect, (info: RawInspect) => Success(StatusOf(info))))
  }

  /** `startContainer(id)`: "already started" (304) counts as success. */
  function StartContainer(svc: Service, d: Daemon, id: string): (r: Run<string>)
    ensures !IsAvailable(svc, d.ping).alive ==> r.result == Failure(NotAvailable) && OnlyPings(r.calls)
    ensures IsAvailable(svc, d.ping).alive ==> r.calls == [PingCall, StartCall(id)]
    ensures r.result == Success(Started) <==> IsAvailable(svc, d.ping).alive && d.start.Ok?
    ensures r.result == Success(AlreadyStarted) <==>
      IsAvailable(svc, d.ping).alive && d.start.Fault? && d.start.statusCode == Some(NotModified)
    ensures IsAvailable(svc, d.ping).alive && d.start.Fault? && d.start.statusCode != Some(NotModified) ==>
      r.result == Failure(d.start.message)
  {
    Guarded(svc, d.ping, StartCall(id), Settle(d.start, Started, Some(AlreadyStarted)))
  }

  /** `stopContainer(id)`: "already stopped" (304) counts as success. */
  function StopContainer(svc: Service, d: Daemon, id: string): (r: Run<string>)
    ensures !IsAvailable(svc, d.ping).alive ==> r.result == Failure(NotAvailable) && OnlyPings(r.calls)
    ensures IsAvailable(svc, d.ping).alive ==> r.calls == [PingCall, StopCall(id)]
    ensures r.result == Success(Stopped) <==> IsAvailable(svc, d.ping).alive && d.stop.Ok?
    ensures r.result == Success(AlreadyStopped) <==>
      IsAvailable(svc, d.ping).alive && d.stop.Fault? && d.stop.statusCode == Some(NotModified)
    ensures IsAvailable(svc, d.ping).alive && d.stop.Fault? && d.stop.statusCode != Some(NotModified) ==>
      r.result == Failure(d.stop.message)
  {
    Guarded(svc, d.ping, StopCall(id), Settle(d.stop, Stopped, Some(AlreadyStopped)))
  }

  /** `restartContainer(id)`: every fault, a 304 included, is a failure. */
  function RestartContainer(svc: Service, d: Daemon, id: string): (r: Run<string>)
    ensures !IsAvailable(svc, d.ping).alive ==> r.result == Failure(NotAvailable) && OnlyPings(r.calls)
    ensures IsAvailable(svc, d.ping).alive ==> r.calls == [PingCall, RestartCall(id)]
    ensures r.result.Success? <==> IsAvailable(svc, d.ping).alive && d.restart.Ok?
    ensures r.result.Success? ==> r.result.payload == Restarted
    ensures IsAvailable(svc, d.ping).alive && d.restart.Fault? ==> r.result == Failure(d.restart.message)
  {
    Guarded(svc, d.ping, RestartCall(id), Settle(d.restart, Restarted, None))
  }

  /** `listNetworks()`: one summary per network, field for field, in order. */
  function ListNetworks(svc: Service, d: Daemon): (r: Run<seq<NetworkSummary>>)
    ensures !IsAvailable(svc, d.ping).alive ==> r.result == Failure(NotAvailable) && OnlyPings(r.calls)
    ensures IsAvailable(svc, d.ping).alive ==> r.calls == [PingCall, ListNetworksCall]
    ensures r.result.Success? <==> IsAvailable(svc, d.ping).alive && d.networks.Ok?
    ensures r.result.Success? ==>
      var ns := d.networks.response;
      && |r.result.payload| == |ns|
      && forall i :: 0 <= i < |ns| ==>
        r.result.payload[i] == NetworkSummary(ns[i].id, ns[i].name, ns[i].driver, ns[i].scope, ns[i].created)
    ensures IsAvailable(svc, d.ping).alive && d.networks.Fault? ==> r.result == Failure(d.networks.message)
  {
    Guarded(svc, d.ping, ListNetworksCall,
      Interpret(d.networks, (ns: seq<RawNetwork>) => Success(seq(|ns|, i requires 0 <= i < |ns| => NetworkOf(ns[i])))))
  }

  /** `getContainerStats(id)`: one snapshot, turned into derived figures. */
  function GetContainerStats(svc: Service, d: Daemon, id: string): (r: Run<ContainerStats>)
    ensures !IsAvailable(svc, d.ping).alive ==> r.result == Failure(NotAvailable) && OnlyPings(r.calls)
    ensures IsAvailable(svc, d.ping).alive ==> r.calls == [PingCall, StatsCall(id)]
    ensures r.result.Success? <==> IsAvailable(svc, d.ping).alive && d.stats.Ok?
    ensures r.result.Success? ==>
      var s := d.stats.response;
      && r.result.payload.cpuPercent == CpuPercent(SampleOf(s.cpuStats), SampleOf(s.precpuStats))
      && r.result.payload.cpuPercent >= 0.0
      && r.result.payload.memPercent >= 0.0
      && r.result.payload.memUsageMB * (MiB as real) == OrZero(s.memoryStats.Or(MemoryStats(None, None)).usage) as real
      && r.result.payload.memLimitMB * (MiB as real) == OrZero(s.memoryStats.Or(MemoryStats(None, None)).limit) as real
    ensures IsAvailable(svc, d.ping).alive && d.stats.Fault? ==> r.result == Failure(d.stats.message)
    ensures r.result.Success? ==> r.result.payload == Derive(d.stats.response)
  {
    Guarded(svc, d.ping, StatsCall(id), Interpret(d.stats, (s: StatsSnapshot) => Success(Derive(s))))
  }

  /** Calling start on a container that is already running (the daemon answers
      304) succeeds, and so does calling it again: never a failure for that
      reason alone. */
  lemma StartTwiceSucceeds(svc: Service, d: Daemon, id: string, message: string)
    requires IsAvailable(svc, d.ping).alive
    requires d.start == Fault(Some(NotModified), message)
    ensures StartContainer(svc, d, id).result == Success(AlreadyStarted)
    ensures StartContainer(svc, d.(start := Ok(())), id).result == Success(Started)
  {
  }

  /** Restart does not share the start/stop normalisation: a 304 is a failure. */
  lemma RestartDoesNotNormalise(svc: Service, d: Daemon, id: string, message: string)
    requires IsAvailable(svc, d.ping).alive
    requires d.restart == Fault(Some(NotModified), message)
    ensures RestartContainer(svc, d, id).result == Failure(message)
  {
  }

  /** Name normalisation examples: the first of several names wins. */
  lemma NameNormalisationExample(c: RawContainer, d: Daemon, svc: Service)
    requires c.names == ["/web-1", "/alias"]
    requires d.containers == Ok([c])
    requires IsAvailable(svc, d.ping).alive
    ensures ListContainers(svc, d, true).result.Success?
    ensures ListContainers(svc, d, true).result.payload[0].name == "web-1"
  {
  }
}
