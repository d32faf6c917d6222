/** The host-metrics endpoint: percentage clamping, choice of the Wi-Fi
    interface, and the utilisation figures derived from the metrics library's
    readings (taken here as inputs). */
module Monitoring {
  import opened Envelopes
  import opened Text

  /** A JavaScript number: `Some` of a finite value, `None` for NaN or an infinity. */
  type Number = Option<real>

  /** `clampPercent`: null for a non-finite value, otherwise the value held to [0, 100]. */
  function ClampPercent(v: Number): (r: Option<real>)
    ensures r.None? <==> v.None?
    ensures r.Some? ==> 0.0 <= r.value <= 100.0
    ensures v.Some? && 0.0 <= v.value <= 100.0 ==> r == v
    ensures v.Some? && v.value < 0.0 ==> r == Some(0.0)
    ensures v.Some? && v.value > 100.0 ==> r == Some(100.0)
  {
    match v
    case None => None
    case Some(x) => Some(if x < 0.0 then 0.0 else if x > 100.0 then 100.0 else x)
  }

  /** Clamping twice is clamping once. */
  lemma ClampPercentIdempotent(v: Number)
    ensures ClampPercent(ClampPercent(v)) == ClampPercent(v)
  {
  }

  /** Clamping never reorders two finite readings. */
  lemma ClampPercentMonotone(x: real, y: real)
    requires x <= y
    ensures ClampPercent(Some(x)).value <= ClampPercent(Some(y)).value
  {
  }

  /** JavaScript division of finite numbers: non-finite (NaN or an infinity)
      exactly when the divisor is zero. */
  function Divide(a: real, b: real): (r: Number)
    ensures r.None? <==> b == 0.0
    ensures r.Some? ==> r.value * b == a
  {
    if b == 0.0 then None else Some(a / b)
  }

  /** Scales a possibly non-finite number by a finite factor. */
  function Scale(v: Number, k: real): (r: Number)
    ensures r.None? <==> v.None?
    ensures r.Some? ==> r.value == v.value * k
  {
    match v
    case None => None
    case Some(x) => Some(x * k)
  }

  /** A non-negative part of a positive whole is a share of at most 1 when
      it fits in the whole, and more than 1 when it exceeds it. */
  lemma ShareVersusOne(part: real, whole: real)
    requires 0.0 <= part && whole > 0.0
    ensures 0.0 <= part / whole
    ensures part <= whole ==> part / whole <= 1.0
    ensures part > whole ==> part / whole > 1.0
  {
    assert (part / whole) * whole == part;
  }

  /** `clampPercent((mem.used / mem.total) * 100)`: null for a zero total,
      else the used share in percent, held to [0, 100]. */
  function RamPercent(used: nat, total: nat): (r: Option<real>)
    ensures r.None? <==> total == 0
    ensures r.Some? ==> 0.0 <= r.value <= 100.0
    ensures total > 0 && used <= total ==> r.Some? && r.value * (total as real) == (used * 100) as real
    ensures total > 0 && used > total ==> r == Some(100.0)
  {
    var ratio := Divide(used as real, total as real);
    assert ratio.Some? ==> (used <= total <==> ratio.value <= 1.0) by {
      if ratio.Some? {
        ShareVersusOne(used as real, total as real);
      }
    }
    ClampPercent(Scale(ratio, 100.0))
  }

  /** A network interface as reported by the metrics library. `iface`,
      `ifaceName`, `operstate` and `kind` (its `type`) use "" for missing;
      `speed` is in Mbit/s, `None` when missing or not a number. */
  datatype NetworkInterface = NetworkInterface(
    iface: string,
    ifaceName: string,
    operstate: string,
    kind: string,
    speed: Option<real>)

  /** `iface.iface || iface.ifaceName || ''`. */
  function DisplayName(i: NetworkInterface): (name: string)
    ensures i.iface != "" ==> name == i.iface
    ensures i.iface == "" ==> name == i.ifaceName
    ensures name == "" <==> i.iface == "" && i.ifaceName == ""
  {
    if i.iface != "" then i.iface else i.ifaceName
  }

  /** The alternatives of `/wi-?fi|wlan|wireless/`, in lower case. */
  const WirelessPatterns: seq<string> := ["wifi", "wi-fi", "wlan", "wireless"]

  /** `/wi-?fi|wlan|wireless/i`: some alternative occurs somewhere in the
      name, whatever the case of its letters. */
  function NameSuggestsWireless(name: string): (b: bool)
    ensures b <==> exists j: nat, k: nat :: j < |WirelessPatterns| && k + |WirelessPatterns[j]| <= |name|
                                            && OccursAt(name, WirelessPatterns[j], k)
  {
    exists j: nat :: j < |WirelessPatterns| && ContainsFolded(name, WirelessPatterns[j])
  }

  predicate IsWireless(i: NetworkInterface) {
    i.kind == "wireless"
  }

  predicate IsUpWireless(i: NetworkInterface) {
    i.operstate == "up" && IsWireless(i)
  }

  predicate IsUpNamedWireless(i: NetworkInterface) {
    i.operstate == "up" && NameSuggestsWireless(DisplayName(i))
  }

  /** `Array.prototype.find`, by index: the first position satisfying `p`. */
  function FindFirst<T>(xs: seq<T>, p: T -> bool): (r: Option<nat>)
    ensures r.None? <==> forall i :: 0 <= i < |xs| ==> !p(xs[i])
    ensures r.Some? ==> r.value < |xs| && p(xs[r.value])
    ensures r.Some? ==> forall j :: 0 <= j < r.value ==> !p(xs[j])
  {
    if xs == [] then None
    else if p(xs[0]) then Some(0)
    else match FindFirst(xs[1..], p)
      case None => None
      case Some(k) => Some(k + 1)
  }

  /** `x` is the first element of `xs` satisfying `p`. */
  ghost predicate IsFirstMatch<T>(xs: seq<T>, p: T -> bool, x: T) {
    exists k :: 0 <= k < |xs| && xs[k] == x && p(x) && forall j :: 0 <= j < k ==> !p(xs[j])
  }

  /** `pickWifiInterface`: null for a non-array; otherwise the first interface
      that is up and wireless, else the first that is up with a Wi-Fi-like
      name, else the first wireless one, else null. */
  function PickWifiInterface(interfaces: Option<seq<NetworkInterface>>): (r: Option<NetworkInterface>)
    ensures interfaces.None? ==> r.None?
    ensures r.Some? ==> interfaces.Some? && r.value in interfaces.value
    ensures interfaces.Some? ==>
      var xs := interfaces.value;
      && (r.None? <==> forall i :: 0 <= i < |xs| ==> !IsWireless(xs[i]) && !IsUpNamedWireless(xs[i]))
      && ((exists i :: 0 <= i < |xs| && IsUpWireless(xs[i])) ==>
            r.Some? && IsFirstMatch(xs, IsUpWireless, r.value))
      && ((forall i :: 0 <= i < |xs| ==> !IsUpWireless(xs[i])) &&
          (exists i :: 0 <= i < |xs| && IsUpNamedWireless(xs[i])) ==>
            r.Some? && IsFirstMatch(xs, IsUpNamedWireless, r.value))
      && ((forall i :: 0 <= i < |xs| ==> !IsUpWireless(xs[i]) && !IsUpNamedWireless(xs[i])) ==>
            (r.None? || IsFirstMatch(xs, IsWireless, r.value)))
  {
    match interfaces
    case None => None
    case Some(xs) =>
      match FindFirst(xs, IsUpWireless)
      case Some(k) => Some(xs[k])
      case None =>
        match FindFirst(xs, IsUpNamedWireless)
        case Some(k) => Some(xs[k])
        case None =>
          match FindFirst(xs, IsWireless)
          case Some(k) => Some(xs[k])
          case None => None
  }

  /** One entry of the per-interface traffic readings: bytes per second
      received and sent, `None` when missing or zero. */
  datatype NetStats = NetStats(rxSec: Option<real>, txSec: Option<real>)

  /** `Number(x || 0)`. */
  function OrZeroReal(x: Option<real>): (v: real)
    ensures x.None? ==> v == 0.0
    ensures x.Some? ==> v == x.value
  {
    x.Or(0.0)
  }

  /** Traffic in bits per second: received plus sent bytes, missing ones as 0, times 8. */
  function TotalBitsPerSec(s: NetStats): (bits: real)
    ensures bits / 8.0 == OrZeroReal(s.rxSec) + OrZeroReal(s.txSec)
    ensures s.rxSec.None? && s.txSec.None? ==> bits == 0.0
    ensures s.txSec.None? ==> bits == 8.0 * OrZeroReal(s.rxSec)
    ensures s.rxSec.None? ==> bits == 8.0 * OrZeroReal(s.txSec)
  {
    (OrZeroReal(s.rxSec) + OrZeroReal(s.txSec)) * 8.0
  }

  /** `Number(speed) || 0`: the reported speed, or 0 when missing or not a number. */
  function SpeedMbps(i: NetworkInterface): (v: real)
    ensures i.speed.None? ==> v == 0.0
    ensures i.speed.Some? ==> v == i.speed.value
  {
    i.speed.Or(0.0)
  }

  /** Link utilisation: null without readings or without a positive link
      speed, otherwise traffic over capacity, in percent, held to [0, 100]. */
  function UtilizationPercent(stats: Option<NetStats>, speedMbps: real): (r: Option<real>)
    ensures r.Some? <==> stats.Some? && speedMbps > 0.0
    ensures r.Some? ==> 0.0 <= r.value <= 100.0
    ensures r.Some? && 0.0 < r.value < 100.0 ==>
      r.value * speedMbps * 1000000.0 == TotalBitsPerSec(stats.value) * 100.0
    ensures r.Some? && TotalBitsPerSec(stats.value) <= 0.0 ==> r.value == 0.0
    ensures r.Some? && 0.0 <= TotalBitsPerSec(stats.value) <= speedMbps * 1000000.0 ==>
      r.value * (speedMbps * 1000000.0) == TotalBitsPerSec(stats.value) * 100.0
    ensures r.Some? && TotalBitsPerSec(stats.value) >= speedMbps * 1000000.0 ==> r.value == 100.0
  {
    if stats.Some? && speedMbps > 0.0 then
      var maxBits := speedMbps * 1000000.0;
      var share := Divide(TotalBitsPerSec(stats.value), maxBits);
      ClampPercent(Scale(share, 100.0))
    else
      None
  }

  /** `Array.isArray(statsList) ? statsList[0] : null`; an empty list reads as missing. */
  function FirstReading(statsList: Option<seq<NetStats>>): (r: Option<NetStats>)
    ensures r.Some? <==> statsList.Some? && |statsList.value| > 0
    ensures r.Some? ==> r.value == statsList.value[0]
  {
    if statsList.Some? && |statsList.value| > 0 then Some(statsList.value[0]) else None
  }

  /** The Wi-Fi part of the endpoint's answer (the rounded Kbps figures are not modelled). */
  datatype WifiReport = WifiReport(iface: string, utilizationPercent: Option<real>)

  /** The Wi-Fi report for the picked interface: null unless one was picked
      and it has a name; `statsList` is the metrics library's answer for that name. */
  function Wifi(picked: Option<NetworkInterface>, statsList: Option<seq<NetStats>>): (r: Option<WifiReport>)
    ensures r.Some? <==> picked.Some? && DisplayName(picked.value) != ""
    ensures r.Some? ==> r.value.iface == DisplayName(picked.value)
    ensures r.Some? ==> (r.value.utilizationPercent.Some? <==>
      statsList.Some? && |statsList.value| > 0 && SpeedMbps(picked.value) > 0.0)
    ensures r.Some? && r.value.utilizationPercent.Some? ==>
      0.0 <= r.value.utilizationPercent.value <= 100.0
    ensures r.Some? ==>
      r.value.utilizationPercent == UtilizationPercent(FirstReading(statsList), SpeedMbps(picked.value))
  {
    match picked
    case None => None
    case Some(i) =>
      var name := DisplayName(i);
      if name == "" then None
      else Some(WifiReport(name, UtilizationPercent(FirstReading(statsList), SpeedMbps(i))))
  }

  /** The endpoint's success answer. */
  datatype MonitoringReport = MonitoringReport(cpuPercent: Option<real>, ramPercent: Option<real>, wifi: Option<WifiReport>)

  /** `/api/monitoring/stats` from the metrics library's readings. */
  function MonitoringStats(
    currentLoad: Number, memUsed: nat, memTotal: nat,
    interfaces: Option<seq<NetworkInterface>>, statsList: Option<seq<NetStats>>): (r: MonitoringReport)
    ensures r.cpuPercent.None? <==> currentLoad.None?
    ensures r.cpuPercent.Some? ==> 0.0 <= r.cpuPercent.value <= 100.0
    ensures r.ramPercent.None? <==> memTotal == 0
    ensures r.ramPercent.Some? ==> 0.0 <= r.ramPercent.value <= 100.0
    ensures r.wifi.Some? ==> PickWifiInterface(interfaces).Some?
    ensures r.wifi.Some? && r.wifi.value.utilizationPercent.Some? ==>
      0.0 <= r.wifi.value.utilizationPercent.value <= 100.0
    ensures r.cpuPercent == ClampPercent(currentLoad)
    ensures r.ramPercent == RamPercent(memUsed, memTotal)
    ensures r.wifi == Wifi(PickWifiInterface(interfaces), statsList)
  {
    MonitoringReport(ClampPercent(currentLoad), RamPercent(memUsed, memTotal), Wifi(PickWifiInterface(interfaces), statsList))
  }
}
