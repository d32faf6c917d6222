/** The id-bearing Docker routes: the container id is checked before the
    facade is reached, and the facade's envelope is answered unchanged. */
module Routes {
  import opened Envelopes
  import opened DaemonApi
  import opened Connector
  import opened StatsDerivation
  import opened Facade
  import opened Validation
  import opened Text

  const InvalidIdMessage: string := "Invalid container ID format"

  /** The routes under `/api/docker/containers/:id/`. */
  datatype Action = Status | Stats | Start | Stop | Restart

  /** The payload key of a successful answer: `status`, `stats` or `message`. */
  datatype Payload = StatusPayload(status: ContainerStatus) | StatsPayload(stats: ContainerStats) | MessagePayload(message: string)

  /** An HTTP answer: status code, JSON envelope, and the daemon round trips made. */
  datatype Response = Response(httpStatus: nat, body: Envelope<Payload>, calls: seq<Call>)

  /** `body` relays the facade envelope `src` unchanged: same outcome, the
      same message on failure, the payload under its key on success. */
  predicate Relays<T>(body: Envelope<Payload>, src: Envelope<T>, key: T -> Payload) {
    && (body.Success? <==> src.Success?)
    && (src.Failure? ==> body.message == src.message)
    && (src.Success? ==> body.payload == key(src.payload))
  }

  /** The facade operation each route invokes, its envelope relayed under the
      route's payload key and its round trips kept. */
  function Dispatch(svc: Service, d: Daemon, action: Action, id: string): (r: Run<Payload>)
    ensures action == Status ==>
      var op := GetContainerStatus(svc, d, id);
      Relays(r.result, op.result, (s: ContainerStatus) => StatusPayload(s)) && r.calls == op.calls
    ensures action == Stats ==>
      var op := GetContainerStats(svc, d, id);
      Relays(r.result, op.result, (s: ContainerStats) => StatsPayload(s)) && r.calls == op.calls
    ensures action == Start ==>
      var op := StartContainer(svc, d, id);
      Relays(r.result, op.result, (m: string) => MessagePayload(m)) && r.calls == op.calls
    ensures action == Stop ==>
      var op := StopContainer(svc, d, id);
      Relays(r.result, op.result, (m: string) => MessagePayload(m)) && r.calls == op.calls
    ensures action == Restart ==>
      var op := RestartContainer(svc, d, id);
      Relays(r.result, op.result, (m: string) => MessagePayload(m)) && r.calls == op.calls
  {
    match action
    case Status =>
      var r := GetContainerStatus(svc, d, id);
      Run(r.result.Map((s: ContainerStatus) => StatusPayload(s)), r.calls)
    case Stats =>
      var r := GetContainerStats(svc, d, id);
      Run(r.result.Map((s: ContainerStats) => StatsPayload(s)), r.calls)
    case Start =>
      var r := StartContainer(svc, d, id);
      Run(r.result.Map((m: string) => MessagePayload(m)), r.calls)
    case Stop =>
      var r := StopContainer(svc, d, id);
      Run(r.result.Map((m: string) => MessagePayload(m)), r.calls)
    case Restart =>
      var r := RestartContainer(svc, d, id);
      Run(r.result.Map((m: string) => MessagePayload(m)), r.calls)
  }

  /** The id names the container of every non-ping round trip in `calls`. */
  predicate CallsTarget(calls: seq<Call>, id: string) {
    forall i :: 0 <= i < |calls| ==>
      calls[i] in {PingCall, InspectCall(id), StatsCall(id), StartCall(id), StopCall(id), RestartCall(id)}
  }

  /** A route handler: 400 with the fixed error and no round trip for a
      malformed id; otherwise 200 with the facade's envelope. */
  function Route(svc: Service, d: Daemon, action: Action, id: string): (r: Response)
    ensures !IsValidContainerId(id) ==> r == Response(400, Failure(InvalidIdMessage), [])
    ensures IsValidContainerId(id) ==> r.httpStatus == 200
    ensures IsValidContainerId(id) && action == Status ==>
      var op := GetContainerStatus(svc, d, id);
      Relays(r.body, op.result, (s: ContainerStatus) => StatusPayload(s)) && r.calls == op.calls
    ensures IsValidContainerId(id) && action == Stats ==>
      var op := GetContainerStats(svc, d, id);
      Relays(r.body, op.result, (s: ContainerStats) => StatsPayload(s)) && r.calls == op.calls
    ensures IsValidContainerId(id) && action == Start ==>
      var op := StartContainer(svc, d, id);
      Relays(r.body, op.result, (m: string) => MessagePayload(m)) && r.calls == op.calls
    ensures IsValidContainerId(id) && action == Stop ==>
      var op := StopContainer(svc, d, id);
      Relays(r.body, op.result, (m: string) => MessagePayload(m)) && r.calls == op.calls
    ensures IsValidContainerId(id) && action == Restart ==>
      var op := RestartContainer(svc, d, id);
      Relays(r.body, op.result, (m: string) => MessagePayload(m)) && r.calls == op.calls
    ensures r.calls != [] ==> IsValidContainerId(id)
    ensures CallsTarget(r.calls, id) && |r.calls| <= 2
    ensures r.body.Success? ==> IsValidContainerId(id) && IsAvailable(svc, d.ping).alive
  {
    if !IsValidContainerId(id) then Response(400, Failure(InvalidIdMessage), [])
    else
      var run := Dispatch(svc, d, action, id);
      Response(200, run.result, run.calls)
  }

  /** End-to-end: a reachable daemon reporting a running container with the
      12-digit id `abcdef012345` answers the status route with 200 and a
      status marked running. */
  lemma StatusRouteExample(svc: Service, d: Daemon, state: RawState)
    requires Constructed(svc) && d.ping.Ok?
    requires state.status == "running" && state.running
    requires d.inspect == Ok(RawInspect("abcdef012345", "/web", state))
    ensures
      var r := Route(svc, d, Status, "abcdef012345");
      && r.httpStatus == 200
      && r.body.Success?
      && r.body.payload.status.id == "abcdef012345"
      && r.body.payload.status.state == "running"
      && r.body.payload.status.running
      && r.calls == [PingCall, InspectCall("abcdef012345")]
  {
    var id := "abcdef012345";
    assert IsValidContainerId(id) by {
      assert forall i :: 0 <= i < |id| ==> IsHexDigit(id[i]);
    }
    var run := GetContainerStatus(svc, d, id);
    assert run.result.Success? && run.result.payload.id == id;
    assert run.calls == [PingCall, InspectCall(id)];
    assert Dispatch(svc, d, Status, id).result == Success(StatusPayload(run.result.payload));
  }
}
