/**
 * What one collection emits, as functions of its inputs: the stream
 * aggregator's step on one message (Handle), its run over a stream that
 * halts at the first Stop (Run), the device index, the zero backfill, and
 * the whole output of one Collect (CollectSamples).
 */
module ExporterSpec {
  import opened Sense
  import opened Metrics

  /** The aggregator's state: which kinds were folded in and which devices reported watts. */
  datatype Aggregator = Aggregator(gotRealtime: bool, gotStates: bool, seenWatts: set<string>)

  const Fresh: Aggregator := Aggregator(false, false, {})

  /** What the callback returns: nil, or the library's Stop sentinel. */
  datatype CallbackResult = Continue | Stop

  /** One callback invocation: the new state, the samples emitted, the value returned. */
  datatype Step = Step(next: Aggregator, emitted: seq<Sample>, result: CallbackResult)

  /** A run of the stream: the final state, everything emitted, and whether the callback stopped it. */
  datatype RunResult = RunResult(final: Aggregator, emitted: seq<Sample>, stopped: bool)

  /** The answers one collection gets: the catalog, the stream, and the measured elapsed seconds. */
  datatype Upstream = Upstream(devices: Result<seq<Device>>, stream: StreamScript, elapsedSeconds: real)

  /** The catalog entry for `id`, or the all-empty zero value when there is none. */
  function Info(devInfo: map<string, Device>, id: string): Device
  {
    if id in devInfo then devInfo[id] else ZeroDevice
  }

  /** The label values device_id, name, type, make, model of a per-device sample. */
  function DeviceLabels(id: string, devInfo: map<string, Device>): seq<string>
  {
    var d := Info(devInfo, id);
    [id, d.name, d.deviceType, d.make, d.model]
  }

  function WattsSample(devInfo: map<string, Device>, d: DevicePower): Sample
  {
    Sample(DeviceWatts, DeviceLabels(d.id, devInfo), d.w)
  }

  /** The device_watts samples of a realtime update, in the order of its devices. */
  function WattsSamples(devInfo: map<string, Device>, devices: seq<DevicePower>): seq<Sample>
  {
    if devices == [] then []
    else WattsSamples(devInfo, devices[..|devices| - 1]) + [WattsSample(devInfo, devices[|devices| - 1])]
  }

  /** The ids of the devices a realtime update reports. */
  function ReportedIds(devices: seq<DevicePower>): set<string>
  {
    if devices == [] then {}
    else ReportedIds(devices[..|devices| - 1]) + {devices[|devices| - 1].id}
  }

  /** The monitor_volts samples of a voltage array, the channel label being the index. */
  function VoltSamples(voltage: seq<real>): seq<Sample>
  {
    if voltage == [] then []
    else VoltSamples(voltage[..|voltage| - 1])
         + [Sample(MonitorVolts, [Itoa(|voltage| - 1)], voltage[|voltage| - 1])]
  }

  /** Everything the first realtime update emits. */
  function RealtimeSamples(devInfo: map<string, Device>, w: real, hz: real, voltage: seq<real>,
                           devices: seq<DevicePower>): seq<Sample>
  {
    WattsSamples(devInfo, devices) + VoltSamples(voltage)
    + [Sample(MonitorWatts, [], w), Sample(MonitorHz, [], hz)]
  }

  function Activity(s: DeviceState): real
  {
    if s.mode == "active" then 1.0 else 0.0
  }

  function Presence(s: DeviceState): real
  {
    if s.state == "online" then 1.0 else 0.0
  }

  /** The device_active and device_online samples of one state entry. */
  function StatePair(devInfo: map<string, Device>, s: DeviceState): seq<Sample>
  {
    [Sample(DeviceActive, DeviceLabels(s.deviceId, devInfo), Activity(s)),
     Sample(DeviceOnline, DeviceLabels(s.deviceId, devInfo), Presence(s))]
  }

  /** Everything the first device-state batch emits, entry by entry. */
  function StateSamples(devInfo: map<string, Device>, states: seq<DeviceState>): seq<Sample>
  {
    if states == [] then []
    else StateSamples(devInfo, states[..|states| - 1]) + StatePair(devInfo, states[|states| - 1])
  }

  /** A message of a kind the aggregator has already folded in. */
  predicate AlreadySeen(a: Aggregator, msg: Message)
  {
    (msg.RealtimeUpdate? && a.gotRealtime) || (msg.DeviceStates? && a.gotStates)
  }

  function StopWhenDone(a: Aggregator): CallbackResult
  {
    if a.gotRealtime && a.gotStates then Stop else Continue
  }

  /**
   * The callback on one message. A kind already seen returns nil at once;
   * otherwise the message is folded in and Stop is returned once both kinds
   * have been seen.
   */
  function Handle(a: Aggregator, devInfo: map<string, Device>, msg: Message): Step
  {
    match msg
    case RealtimeUpdate(w, hz, voltage, devices) =>
      if a.gotRealtime then Step(a, [], Continue)
      else
        var next := a.(gotRealtime := true, seenWatts := a.seenWatts + ReportedIds(devices));
        Step(next, RealtimeSamples(devInfo, w, hz, voltage, devices), StopWhenDone(next))
    case DeviceStates(states) =>
      if a.gotStates then Step(a, [], Continue)
      else
        var next := a.(gotStates := true);
        Step(next, StateSamples(devInfo, states), StopWhenDone(next))
    case OtherMessage =>
      Step(a, [], StopWhenDone(a))
  }

  /** The stream feeding `msgs` to the callback in order, halting at the first Stop. */
  function Run(a: Aggregator, devInfo: map<string, Device>, msgs: seq<Message>): RunResult
    decreases |msgs|
  {
    if msgs == [] then RunResult(a, [], false)
    else
      var h := Handle(a, devInfo, msgs[0]);
      if h.result == Stop then RunResult(h.next, h.emitted, true)
      else
        var rest := Run(h.next, devInfo, msgs[1..]);
        RunResult(rest.final, h.emitted + rest.emitted, rest.stopped)
  }

  /** The catalog indexed by device id; a later entry with the same id replaces an earlier one. */
  function Index(devices: seq<Device>): map<string, Device>
  {
    if devices == [] then map[]
    else Index(devices[..|devices| - 1])[devices[|devices| - 1].id := devices[|devices| - 1]]
  }

  /** The zero device_watts sample the backfill emits for catalog entry `d`, labelled from the index. */
  function ZeroWatts(d: Device, devInfo: map<string, Device>): Sample
  {
    Sample(DeviceWatts, DeviceLabels(d.id, devInfo), 0.0)
  }

  /** The zero device_watts samples for the catalog entries whose id was never reported. */
  function Backfill(devices: seq<Device>, devInfo: map<string, Device>, seen: set<string>): seq<Sample>
  {
    if devices == [] then []
    else
      var d := devices[|devices| - 1];
      Backfill(devices[..|devices| - 1], devInfo, seen)
      + (if d.id in seen then [] else [ZeroWatts(d, devInfo)])
  }

  /** The two samples the deferred closure emits on every exit path. */
  function Deferred(ok: real, elapsedSeconds: real): seq<Sample>
  {
    [Sample(Up, [], ok), Sample(ScrapeTime, [], elapsedSeconds)]
  }

  /** Whether the collection succeeded: the catalog was fetched and the stream returned no error. */
  predicate CollectionOk(up: Upstream)
  {
    up.devices.Ok? && up.stream.err.None?
  }

  /** The whole output of one Collect. */
  function CollectSamples(up: Upstream): seq<Sample>
  {
    match up.devices
    case Err(_) => Deferred(0.0, up.elapsedSeconds)
    case Ok(devices) =>
      var devInfo := Index(devices);
      var run := Run(Fresh, devInfo, up.stream.messages);
      run.emitted + Backfill(devices, devInfo, run.final.seenWatts)
      + Deferred(if up.stream.err.None? then 1.0 else 0.0, up.elapsedSeconds)
  }
}
