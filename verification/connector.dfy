/** The runtime connector: the one connection target chosen when the service
    is constructed, and the liveness probe every facade operation runs first. */
module Connector {
  import opened Envelopes
  import opened DaemonApi

  /** The process configuration construction reads. `dockerHost` is the
      `DOCKER_HOST` variable, with "" standing for unset (both are falsy). */
  datatype Environment = Environment(dockerHost: string, platform: string)

  /** Where the client connects: the client library's own environment-driven
      default, or an explicit local socket / named-pipe path. */
  datatype Target = FromEnvironment | SocketPath(path: string)

  const NamedPipe: string := "//./pipe/docker_engine"
  const UnixSocket: string := "/var/run/docker.sock"

  /** The constructed service: the `available` flag and the client (absent
      after a construction fault). */
  datatype Service = Service(available: bool, client: Option<Target>)

  predicate IsWindows(env: Environment) {
    env.platform == "win32"
  }

  /** The connection target, by precedence: an explicit `DOCKER_HOST`, then
      the named pipe on Windows, then the Unix socket. */
  function SelectTarget(env: Environment): (t: Target)
    ensures t == FromEnvironment <==> env.dockerHost != ""
    ensures t == SocketPath(NamedPipe) <==> env.dockerHost == "" && IsWindows(env)
    ensures t == SocketPath(UnixSocket) <==> env.dockerHost == "" && !IsWindows(env)
  {
    if env.dockerHost != "" then FromEnvironment
    else if IsWindows(env) then SocketPath(NamedPipe)
    else SocketPath(UnixSocket)
  }

  /** Construction. `clientFault` says whether creating the client raised;
      a fault is caught and leaves the service without a client. */
  function Construct(env: Environment, clientFault: bool): (s: Service)
    ensures s.available <==> !clientFault
    ensures s.available <==> s.client.Some?
    ensures s.client.Some? ==> s.client.value == SelectTarget(env)
  {
    if clientFault then Service(false, None)
    else Service(true, Some(SelectTarget(env)))
  }

  /** Whether the service got a client at construction. */
  predicate Constructed(svc: Service) {
    svc.available && svc.client.Some?
  }

  /** The outcome of `isAvailable`: the answer and the round trips it made. */
  datatype Probe = Probe(alive: bool, calls: seq<Call>)

  /** `isAvailable`: false without a round trip when construction failed,
      otherwise one ping, true exactly when the ping succeeds. */
  function IsAvailable(svc: Service, ping: Reply<()>): (p: Probe)
    ensures p.alive <==> Constructed(svc) && ping.Ok?
    ensures p.calls == [] <==> !Constructed(svc)
    ensures forall i :: 0 <= i < |p.calls| ==> p.calls[i] == PingCall
    ensures |p.calls| <= 1
  {
    if !Constructed(svc) then Probe(false, [])
    else Probe(ping.Ok?, [PingCall])
  }

  /** A service whose construction faulted never reports itself available and
      never pings, whatever the daemon would answer. */
  lemma FaultedServiceStaysUnavailable(env: Environment, ping: Reply<()>)
    ensures !IsAvailable(Construct(env, true), ping).alive
    ensures IsAvailable(Construct(env, true), ping).calls == []
  {
  }
}
