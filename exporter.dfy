/**
 * The collector as the exporter runs it: a callback container whose fields
 * the callback updates in place, a stream that feeds it messages, and
 * Collect, which fetches the catalog, indexes it, drives the stream,
 * backfills zero watts and always ends with the up and scrape-time samples.
 * Each method is proved against the functions of ExporterSpec.
 */
module Exporter {
  import opened Sense
  import opened Metrics
  import opened ExporterSpec

  /** The metric channel: everything sent on it, in order. */
  class MetricSink {
    var sent: seq<Sample>

    constructor ()
      ensures sent == []
    {
      sent := [];
    }

    method Send(s: Sample)
      modifies this
      ensures sent == old(sent) + [s]
    {
      sent := sent + [s];
    }
  }

  /** The state the stream callback closes over. */
  class CallbackContainer {
    var gotRealtime: bool
    var gotStates: bool
    const ch: MetricSink
    const devInfo: map<string, Device>
    var seenWatts: set<string>

    function State(): Aggregator
      reads this
    {
      Aggregator(gotRealtime, gotStates, seenWatts)
    }

    constructor (ch: MetricSink, devInfo: map<string, Device>)
      ensures this.ch == ch && this.devInfo == devInfo
      ensures State() == Fresh
    {
      this.ch := ch;
      this.devInfo := devInfo;
      gotRealtime, gotStates, seenWatts := false, false, {};
    }

    /** The stream callback: one step of the aggregator, sending its samples on `ch`. */
    method Callback(msg: Message) returns (r: CallbackResult)
      modifies this, ch
      ensures var h := Handle(old(State()), devInfo, msg);
              State() == h.next && ch.sent == old(ch.sent) + h.emitted && r == h.result
    {
      match msg {
        case RealtimeUpdate(w, hz, voltage, devices) =>
          if gotRealtime {
            return Continue;
          }
          FoldRealtime(w, hz, voltage, devices);
        case DeviceStates(states) =>
          if gotStates {
            return Continue;
          }
          FoldStates(states);
        case OtherMessage =>
      }
      r := if gotRealtime && gotStates then Stop else Continue;
    }

    /** The body of the realtime case: emit its samples and mark its devices seen. */
    method FoldRealtime(w: real, hz: real, voltage: seq<real>, devices: seq<DevicePower>)
      modifies this, ch
      ensures State() == old(State()).(gotRealtime := true, seenWatts := old(seenWatts) + ReportedIds(devices))
      ensures ch.sent == old(ch.sent) + RealtimeSamples(devInfo, w, hz, voltage, devices)
    {
      var i := 0;
      while i < |devices|
        invariant 0 <= i <= |devices|
        invariant ch.sent == old(ch.sent) + WattsSamples(devInfo, devices[..i])
        invariant State() == old(State()).(seenWatts := old(seenWatts) + ReportedIds(devices[..i]))
      {
        var d := devices[i];
        ch.Send(WattsSample(devInfo, d));
        seenWatts := seenWatts + {d.id};
        assert devices[..i + 1][..i] == devices[..i];
        i := i + 1;
      }
      assert devices[..i] == devices;
      SendVolts(voltage);
      ch.Send(Sample(MonitorWatts, [], w));
      ch.Send(Sample(MonitorHz, [], hz));
      gotRealtime := true;
    }

    /** The voltage loop of the realtime case: one sample per channel, labelled with its index. */
    method SendVolts(voltage: seq<real>)
      modifies ch
      ensures ch.sent == old(ch.sent) + VoltSamples(voltage)
    {
      for channel := 0 to |voltage|
        invariant ch.sent == old(ch.sent) + VoltSamples(voltage[..channel])
      {
        ch.Send(Sample(MonitorVolts, [Itoa(channel)], voltage[channel]));
        assert voltage[..channel + 1][..channel] == voltage[..channel];
      }
      assert voltage[..|voltage|] == voltage;
    }

    /** The body of the device-state case: an active and an online sample per entry. */
    method FoldStates(states: seq<DeviceState>)
      modifies this, ch
      ensures State() == old(State()).(gotStates := true)
      ensures ch.sent == old(ch.sent) + StateSamples(devInfo, states)
    {
      var i := 0;
      while i < |states|
        invariant 0 <= i <= |states|
        invariant ch.sent == old(ch.sent) + StateSamples(devInfo, states[..i])
        invariant State() == old(State())
      {
        var d := states[i];
        var active, online := 0.0, 0.0;
        if d.mode == "active" {
          active := 1.0;
        }
        if d.state == "online" {
          online := 1.0;
        }
        ch.Send(Sample(DeviceActive, DeviceLabels(d.deviceId, devInfo), active));
        ch.Send(Sample(DeviceOnline, DeviceLabels(d.deviceId, devInfo), online));
        assert states[..i + 1][..i] == states[..i];
        i := i + 1;
      }
      assert states[..i] == states;
      gotStates := true;
    }
  }

  /** `r` with `prefix` emitted before its own samples. */
  ghost function After(prefix: seq<Sample>, r: RunResult): RunResult
  {
    RunResult(r.final, prefix + r.emitted, r.stopped)
  }

  /**
   * The client library's Stream: feeds the scripted messages to the callback
   * in order until the callback returns Stop, then returns the scripted error.
   */
  method Stream(cb: CallbackContainer, script: StreamScript) returns (err: Option<string>)
    modifies cb, cb.ch
    ensures var run := Run(old(cb.State()), cb.devInfo, script.messages);
            cb.State() == run.final && cb.ch.sent == old(cb.ch.sent) + run.emitted
    ensures err == script.err
  {
    var msgs := script.messages;
    var i := 0;
    var stopped := false;
    ghost var emitted: seq<Sample> := [];
    while i < |msgs| && !stopped
      invariant 0 <= i <= |msgs|
      invariant cb.ch.sent == old(cb.ch.sent) + emitted
      invariant !stopped ==>
        Run(old(cb.State()), cb.devInfo, msgs) == After(emitted, Run(cb.State(), cb.devInfo, msgs[i..]))
      invariant stopped ==>
        Run(old(cb.State()), cb.devInfo, msgs) == RunResult(cb.State(), emitted, true)
    {
      ghost var h := Handle(cb.State(), cb.devInfo, msgs[i]);
      assert msgs[i..][1..] == msgs[i + 1..];
      var res := cb.Callback(msgs[i]);
      emitted := emitted + h.emitted;
      stopped := res == Stop;
      i := i + 1;
    }
    err := script.err;
  }

  /** The device index Collect builds from the catalog before streaming. */
  method IndexDevices(devices: seq<Device>) returns (devInfo: map<string, Device>)
    ensures devInfo == Index(devices)
  {
    devInfo := map[];
    for i := 0 to |devices|
      invariant devInfo == Index(devices[..i])
    {
      assert devices[..i + 1][..i] == devices[..i];
      devInfo := devInfo[devices[i].id := devices[i]];
    }
    assert devices[..|devices|] == devices;
  }

  /** The backfill loop of Collect: a zero device_watts sample per catalog entry never seen. */
  method SendBackfill(ch: MetricSink, devices: seq<Device>, devInfo: map<string, Device>, seen: set<string>)
    modifies ch
    ensures ch.sent == old(ch.sent) + Backfill(devices, devInfo, seen)
  {
    for i := 0 to |devices|
      invariant ch.sent == old(ch.sent) + Backfill(devices[..i], devInfo, seen)
    {
      var d := devices[i];
      if d.id !in seen {
        ch.Send(ZeroWatts(d, devInfo));
      }
      assert devices[..i + 1][..i] == devices[..i];
    }
    assert devices[..|devices|] == devices;
  }

  /**
   * One collection for one monitor. The up and scrape-time samples that the
   * source emits from a deferred closure are sent after both exit paths.
   */
  method Collect(ch: MetricSink, upstream: Upstream)
    modifies ch
    ensures ch.sent == old(ch.sent) + CollectSamples(upstream)
  {
    var collectOk := 1.0;
    match upstream.devices {
      case Err(_) =>
        collectOk := 0.0;
      case Ok(devices) =>
        var devInfo := IndexDevices(devices);
        var cb := new CallbackContainer(ch, devInfo);
        var err := Stream(cb, upstream.stream);
        if err.Some? {
          collectOk := 0.0;
        }
        SendBackfill(ch, devices, devInfo, cb.seenWatts);
    }
    ch.Send(Sample(Up, [], collectOk));
    ch.Send(Sample(ScrapeTime, [], upstream.elapsedSeconds));
  }
}
