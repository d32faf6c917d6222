# NEXUS-NET container control and monitoring helpers, in Dafny

This project models two parts of the NEXUS-NET dashboard server.

The first is the **container control facade** (`DockerService`). It wraps a
Docker daemon and has seven operations: listing containers, inspecting one
container's status, starting, stopping and restarting a container, listing
networks, and deriving CPU and memory figures from one statistics snapshot.
Each operation first probes the daemon. When the daemon is unreachable, the
operation answers `Docker not available` and makes no further round trip.
Otherwise it makes exactly one daemon request and turns the reply into a
`{success, ...}` envelope. A daemon fault never escapes as an exception.

The second part is the **pure helpers of the web server**:
- the container-id validator and the 400 gate it drives on every
  `/api/docker/containers/:id/*` route;
- `clampPercent`;
- the priority-ordered Wi-Fi interface picker;
- the Wi-Fi utilisation and RAM percentages of `/api/monitoring/stats`;
- the theme-colour check of `/settings/update` and the default page accent.

The daemon, the host-metrics library and the process environment become
inputs:
- `DaemonApi.Daemon` holds the reply (`Ok(response)` or
  `Fault(statusCode, message)`) the daemon gives to each kind of request.
- Every facade operation returns `Run(result, calls)`: the envelope and the
  trace of daemon round trips it made. This trace is how "no daemon call" is
  stated.
- `Connector.Construct` takes the environment (`DOCKER_HOST`, platform) and a
  flag saying whether creating the client raised.
- JSON fields that may be missing are `Option`s. The source reads numeric
  fields with `x || 0`, where 0 counts as missing; `Option<nat>` with `OrZero`
  reproduces this. The one place where a present 0 changes the outcome is
  `online_cpus`: a 0 there falls through to the per-core list.
- String fields read with `a || b || ''` are plain strings, with "" standing
  for missing.
- Percentages are `real`. A JavaScript NaN or Infinity is `None` in
  `Monitoring.Number`, and division by zero produces it.

Modules: `Envelopes` (Option, Envelope), `DaemonApi` (daemon records, replies,
call trace), `Connector` (target selection, `isAvailable`), `StatsDerivation`,
`Facade`, `Text` (hex digits, ASCII case-insensitive substring search),
`Validation`, `Monitoring`, `Routes`.

No facade operation validates its id; only the `/api/docker/containers/:id/*`
routes in `server.js` do (`Routes.Route`).

## Model

| member | source | states |
|---|---|---|
| Connector.SelectTarget | docker-service.js:11-19 | Exactly one target is chosen, by precedence: the client's environment default iff `DOCKER_HOST` is set; otherwise the named pipe iff the platform is `win32`; otherwise `/var/run/docker.sock` |
| Connector.Construct | docker-service.js:5-26 | The service is available iff creating the client did not fault. It has a client iff it is available, and that client uses the selected target |
| Connector.IsAvailable | docker-service.js:28-40 | True iff construction succeeded and the ping succeeds. No round trip at all when construction failed; otherwise exactly one ping |
| Connector.FaultedServiceStaysUnavailable | docker-service.js:21-31 | After a construction fault the service never reports itself available and never pings, whatever the daemon would answer |
| StatsDerivation.OrZero | docker-service.js:177-178 | A missing counter reads as 0; a present one reads as itself |
| StatsDerivation.CpuCount | docker-service.js:179 | The core count is `online_cpus` when present and nonzero. Otherwise it is the length of `percpu_usage` when present (even if empty), otherwise 1 |
| StatsDerivation.CpuPercent | docker-service.js:175-184 | Never negative. It is 0 unless both the system delta and the container delta are positive; inside that window it is positive whenever there is at least one core |
| StatsDerivation.CpuPercentShare | docker-service.js:181-184 | Inside a valid window, percent × systemDelta = cpuDelta × cores × 100, so the container's CPU time is recovered from the reported figure |
| StatsDerivation.MemPercent | docker-service.js:186-188 | Never negative. It is 0 for a zero limit; otherwise percent × limit = usage × 100, and it is at most 100 when usage ≤ limit |
| StatsDerivation.ToMiB | docker-service.js:195-196 | The MB figure times 1048576 gives back the byte count, and it is never negative |
| StatsDerivation.Derive | docker-service.js:175-197 | CPU% comes from the current and previous samples, with missing samples read as empty. Both MB figures multiply back to the (defaulted) byte counts. memPercent equals usageMB / limitMB × 100 when the limit is positive and 0 when it is zero |
| StatsDerivation.MemPercentInMiB | docker-service.js:188-196 | The memory percentage is the same whether computed in bytes or in mebibytes |
| StatsDerivation.CpuPercentAtMostCores | docker-service.js:181-184 | When the container used no more time than the system, CPU% is at most 100 per core |
| StatsDerivation.NoSystemTimeMeansZeroCpu | docker-service.js:181-184 | A zero or negative system delta gives exactly 0, whatever the container delta |
| StatsDerivation.CpuPercentExample | docker-service.js:177-183 | A container delta of 1000, a system delta of 10000 and 2 cores give 20% |
| Facade.StripLeadingSlash | docker-service.js:53 | The result is the name with one leading '/' removed, or the name itself if it has no leading '/' |
| Facade.StripLeadingSlashInverse | docker-service.js:53 | Stripping undoes prefixing a name with '/', and removes only that one character |
| Facade.Guarded | docker-service.js:43-45 | When the probe fails, the result is `Docker not available` and the trace holds at most one ping. Otherwise the trace is the ping followed by the operation's one call, and the result is the operation's outcome |
| Facade.Interpret | docker-service.js:61-63 | A daemon fault becomes a failure carrying the fault's message verbatim |
| Facade.Settle | docker-service.js:99-109 | Lifecycle outcome: Ok gives the "done" message. A 304 fault gives the "already" message when the operation has one. Any other fault fails with its message |
| Facade.SummarizeAll | docker-service.js:51-59 | Succeeds iff every container has a name. Then it gives one summary per container, in order, with every field copied and the name taken from the first name with its '/' stripped. Otherwise it fails with the runtime's message |
| Facade.ListContainers | docker-service.js:42-64 | Short-circuits when unavailable. Otherwise the trace is ping then list(all). It succeeds iff the daemon answers and every container has a name. An answered listing yields exactly the one-for-one summaries of `SummarizeAll`, with every field copied and the name normalised. A fault's message is relayed |
| Facade.GetContainerStatus | docker-service.js:66-92 | Short-circuits when unavailable. Otherwise the trace is ping then inspect(id). It succeeds iff the inspection answers, and every status field equals the inspection's, with the name stripped. A fault's message is relayed |
| Facade.StartContainer | docker-service.js:94-110 | Short-circuits when unavailable. "Container started" iff the start is Ok, and "already started" iff it faults with 304. Any other fault fails with its message |
| Facade.StopContainer | docker-service.js:112-128 | Same as start, with "Container stopped" and "already stopped" |
| Facade.RestartContainer | docker-service.js:130-142 | Short-circuits when unavailable. Succeeds iff the restart is Ok. Every fault, 304 included, fails with its message |
| Facade.ListNetworks | docker-service.js:144-164 | Short-circuits when unavailable. It succeeds iff the daemon answers, and then maps networks one-for-one, in order, field for field. A fault's message is relayed |
| Facade.GetContainerStats | docker-service.js:166-202 | Short-circuits when unavailable. Otherwise the trace is ping then stats(id). It succeeds iff the snapshot arrives, and the payload is then exactly the `Derive` figures of that snapshot: CPU% is the two-sample figure, memPercent has the zero-limit guard and usage/limit ratio, and the MB figures multiply back to the bytes. A fault's message is relayed |
| Facade.StartTwiceSucceeds | docker-service.js:99-109 | Starting an already running container (304) succeeds, and so does a start that goes through: start never fails for that reason alone |
| Facade.RestartDoesNotNormalise | docker-service.js:135-141 | A 304 fault on restart is a failure carrying the fault's message |
| Facade.NameNormalisationExample | docker-service.js:48-59 | The names `["/web-1", "/alias"]` list as `web-1`: the first name wins, with its '/' stripped |
| Text.AllHex | server.js:328 | True iff every character is in `[0-9a-fA-F]` |
| Text.LowerAscii | server.js:268 | Each ASCII capital maps to its own lower-case letter (code + 32); every other character is unchanged |
| Text.ContainsFolded | server.js:268 | True iff the lower-case pattern occurs at some offset of the string, ignoring the string's letter case |
| Text.ShiftOccurrence | server.js:268 | When there is no match at offset 0, the string contains the pattern iff its tail does |
| Validation.IsValidContainerId | server.js:326-329 | True iff the id has 12 to 64 characters, all hexadecimal digits of either case |
| Validation.ContainerIdBoundaries | server.js:326-329 | Among all-hex strings, those of length 11 or 65 are rejected and those of length 12 or 64 are accepted |
| Validation.NonHexCharacterRejected | server.js:326-329 | A single non-hex character at any position rejects the id, whatever its length |
| Validation.ThemeColour | server.js:202 | The stored colour is always `#` plus six hex digits. It equals the submission iff the submission has that form; otherwise it is `#38bdf8` |
| Validation.ThemeColourIdempotent | server.js:202 | Re-submitting the stored colour keeps it |
| Validation.AccentColour | server.js:50-54 | The user's theme colour when there is a user with a colour; otherwise `#38bdf8`. Never empty |
| Validation.AccentAfterUpdateIsHexColour | server.js:202-213 | After a settings update the page accent is a well-formed hex colour |
| Monitoring.ClampPercent | server.js:273-276 | Null iff the input is non-finite. The result is in [0,100], is the identity on [0,100], and is 0 below and 100 above |
| Monitoring.ClampPercentIdempotent | server.js:273-276 | Clamping twice equals clamping once |
| Monitoring.ClampPercentMonotone | server.js:273-276 | Clamping preserves the order of finite readings |
| Monitoring.Divide | server.js:287 | Division is non-finite iff the divisor is 0; otherwise quotient × divisor = dividend |
| Monitoring.RamPercent | server.js:287 | Null iff the total is 0; otherwise within [0,100]. When used ≤ total, percent × total = used × 100; when used > total, exactly 100 |
| Monitoring.FindFirst | server.js:266 | Returns the first index whose element satisfies the test; it is none iff no element does |
| Monitoring.PickWifiInterface | server.js:264-271 | Null for a non-array input. A result is always an element of the input. The first up-and-wireless interface wins; otherwise the first up one with a Wi-Fi-like name; otherwise the first wireless one. The result is null iff none qualifies |
| Monitoring.FirstReading | server.js:295 | The first traffic reading of an array; missing for a non-array or an empty one |
| Monitoring.UtilizationPercent | server.js:296-303 | Present iff there is a reading and the speed is positive, and then in [0,100]. With capacity C = speed × 10^6 and traffic B bits/s: 0 when B ≤ 0, utilisation × C = B × 100 when 0 ≤ B ≤ C, and 100 when B ≥ C |
| Monitoring.Wifi | server.js:289-311 | A report exists iff an interface was picked and has a name. The report carries that name. Its utilisation is that interface's `UtilizationPercent` from the first reading and the link speed: present iff the readings list is non-empty and the speed is positive, and then in [0,100] |
| Monitoring.MonitoringStats | server.js:278-318 | CPU% is the clamped load, null iff the load is non-finite. RAM% is `RamPercent` of used/total, null iff total memory is 0. Wi-Fi is the report for the picked interface. Every percentage present is in [0,100] |
| Monitoring.DisplayName | server.js:268 | `iface` when non-empty, else `ifaceName`; empty iff both are empty |
| Monitoring.NameSuggestsWireless | server.js:268 | True iff one of `wifi`, `wi-fi`, `wlan`, `wireless` occurs somewhere in the name, ignoring the case of its letters |
| Monitoring.OrZeroReal | server.js:300 | A missing reading counts as 0; a present one as itself |
| Monitoring.SpeedMbps | server.js:296 | The reported link speed, or 0 when it is missing or not a number |
| Monitoring.TotalBitsPerSec | server.js:300 | Eight times the sum of received and sent bytes per second, missing ones counting as 0 |
| Routes.Dispatch | server.js:342-378 | Each route invokes its own operation (status, stats, start, stop, restart) with the given id. The envelope is relayed unchanged under that route's payload key, with the same outcome and message, and the operation's round trips are kept |
| Routes.Route | server.js:337-380 | A malformed id gives 400 `Invalid container ID format` with no daemon round trip. A valid id gives 200 with the operation's envelope and trace relayed unchanged. Every round trip names the requested id |
| Routes.StatusRouteExample | server.js:338-344 | A running container `abcdef012345` on a reachable daemon answers the status route with 200 and a running status, after one ping and one inspection |

## Left out

- Express wiring, sessions, cookies, helmet, compression and rate limiting: request plumbing with no logic to verify.
- Login, registration, plans and the settings password/delete routes: bcrypt and SQL calls, i.e. foreign calls and CRUD.
- The rest of the settings update (the SQL update and re-read): only the colour decision is modelled.
- The bug-report route, which only appends to a file.
- The database module (pool creation, schema loading): I/O only.
- The dockerode and systeminformation calls themselves: their results are inputs (`DaemonApi.Daemon`, the arguments of `Monitoring.MonitoringStats`).
- The 500 answer of `/api/monitoring/stats` when the metrics library throws: the library is an input here and cannot throw.
- Concurrency (`async`, `Promise.all`): each operation is sequential and stateless, and interleaving carries no meaning for the results.
- Console warnings on construction and ping failure: logging only.
- The `rxKbps` / `txKbps` figures of the Wi-Fi report: they are `Math.round` of a float, and IEEE-754 rounding is not modelled.
- Monitoring.UtilizationPercent: an infinite link speed (which makes JavaScript report 0) is not representable; speeds are finite reals or missing.
- The ungated routes `/api/docker/containers` and `/api/docker/networks` pass the facade's envelope through unchanged; `Facade.ListContainers` and `Facade.ListNetworks` state what they answer.
- Facade.SummarizeAll: a container whose `Names` field is missing altogether (rather than empty) is not represented; `names` is always a sequence.
- Daemon state (which containers are running): the daemon's replies are inputs, so "already started" is stated in terms of the 304 reply, not of a container state machine.
