/**
 * Properties of the stream aggregator: what the first message of each kind
 * emits, that repeats change nothing, that the state only grows, when the
 * stream is stopped, and which devices end up with a device_watts sample.
 */
module CallbackProps {
  import opened Sense
  import opened Metrics
  import opened ExporterSpec

  /** Two messages of the same handled kind. */
  predicate SameKind(m: Message, x: Message)
  {
    (m.RealtimeUpdate? && x.RealtimeUpdate?) || (m.DeviceStates? && x.DeviceStates?)
  }

  /** Samples the stream may emit: never up or scrape time, label count matching the descriptor. */
  predicate StreamGauges(s: seq<Sample>)
  {
    forall k :: 0 <= k < |s| ==> Consistent(s[k]) && s[k].gauge != Up && s[k].gauge != ScrapeTime
  }

  /** A realtime update that reports no device twice. */
  predicate DistinctIds(devices: seq<DevicePower>)
  {
    forall i, j :: 0 <= i < j < |devices| ==> devices[i].id != devices[j].id
  }

  predicate RealtimeIdsDistinct(msgs: seq<Message>)
  {
    forall i :: 0 <= i < |msgs| && msgs[i].RealtimeUpdate? ==> DistinctIds(msgs[i].devices)
  }

  // ---------------------------------------------------------------------------
  // The emissions of one realtime update and of one device-state batch

  lemma {:induction false} ReportedIdsSpec(devices: seq<DevicePower>, id: string)
    ensures id in ReportedIds(devices) <==> exists k :: 0 <= k < |devices| && devices[k].id == id
    decreases |devices|
  {
    if devices != [] {
      var init := devices[..|devices| - 1];
      ReportedIdsSpec(init, id);
      if id in ReportedIds(init) {
        var k :| 0 <= k < |init| && init[k].id == id;
        assert devices[k].id == id;
      }
      if exists k :: 0 <= k < |devices| && devices[k].id == id {
        var k :| 0 <= k < |devices| && devices[k].id == id;
        if k < |init| {
          assert init[k].id == id;
        }
      }
    }
  }

  /** One device_watts sample per reported device, in order, labelled from the catalog. */
  lemma {:induction false} WattsSamplesAt(devInfo: map<string, Device>, devices: seq<DevicePower>)
    ensures |WattsSamples(devInfo, devices)| == |devices|
    ensures forall k :: 0 <= k < |devices| ==>
      WattsSamples(devInfo, devices)[k] == Sample(DeviceWatts, DeviceLabels(devices[k].id, devInfo), devices[k].w)
    decreases |devices|
  {
    if devices != [] {
      var init := devices[..|devices| - 1];
      WattsSamplesAt(devInfo, init);
      assert forall k :: 0 <= k < |init| ==> init[k] == devices[k];
    }
  }

  /** One monitor_volts sample per voltage entry, labelled with its zero-based index. */
  lemma {:induction false} VoltSamplesAt(voltage: seq<real>)
    ensures |VoltSamples(voltage)| == |voltage|
    ensures forall c :: 0 <= c < |voltage| ==>
      VoltSamples(voltage)[c] == Sample(MonitorVolts, [Itoa(c)], voltage[c])
    decreases |voltage|
  {
    if voltage != [] {
      var init := voltage[..|voltage| - 1];
      VoltSamplesAt(init);
      assert forall c :: 0 <= c < |init| ==> init[c] == voltage[c];
    }
  }

  /** No two monitor_volts samples of one update share a channel label. */
  lemma VoltChannelsDistinct(voltage: seq<real>, c1: nat, c2: nat)
    requires c1 < |voltage| && c2 < |voltage| && c1 != c2
    ensures |VoltSamples(voltage)| == |voltage|
    ensures VoltSamples(voltage)[c1].labelValues != VoltSamples(voltage)[c2].labelValues
  {
    VoltSamplesAt(voltage);
    if Itoa(c1) == Itoa(c2) {
      ItoaInjective(c1, c2);
    }
  }

  /**
   * For each state entry in order, a device_active then a device_online
   * sample; active is 1 iff the mode is "active", online is 1 iff the state
   * is "online", and 0 otherwise.
   */
  lemma {:induction false} StateSamplesAt(devInfo: map<string, Device>, states: seq<DeviceState>)
    ensures |StateSamples(devInfo, states)| == 2 * |states|
    ensures forall k :: 0 <= k < |states| ==>
      StateSamples(devInfo, states)[2 * k] ==
        Sample(DeviceActive, DeviceLabels(states[k].deviceId, devInfo),
               if states[k].mode == "active" then 1.0 else 0.0)
    ensures forall k :: 0 <= k < |states| ==>
      StateSamples(devInfo, states)[2 * k + 1] ==
        Sample(DeviceOnline, DeviceLabels(states[k].deviceId, devInfo),
               if states[k].state == "online" then 1.0 else 0.0)
    decreases |states|
  {
    if states != [] {
      var init := states[..|states| - 1];
      StateSamplesAt(devInfo, init);
      assert forall k :: 0 <= k < |init| ==> init[k] == states[k];
    }
  }

  /** A device the catalog does not know still gets its samples, with empty labels. */
  lemma UnknownDeviceLabels(id: string, devInfo: map<string, Device>)
    requires id !in devInfo
    ensures DeviceLabels(id, devInfo) == [id, "", "", "", ""]
  {
  }

  /** The layout of a realtime update's samples: watts, then volts, then monitor watts and hertz. */
  lemma RealtimeSamplesAt(devInfo: map<string, Device>, w: real, hz: real, voltage: seq<real>,
                          devices: seq<DevicePower>)
    ensures var e := RealtimeSamples(devInfo, w, hz, voltage, devices);
            var n, m := |devices|, |voltage|;
            && |e| == n + m + 2
            && (forall k :: 0 <= k < n ==> e[k] == Sample(DeviceWatts, DeviceLabels(devices[k].id, devInfo), devices[k].w))
            && (forall c :: 0 <= c < m ==> e[n + c] == Sample(MonitorVolts, [Itoa(c)], voltage[c]))
            && e[n + m] == Sample(MonitorWatts, [], w)
            && e[n + m + 1] == Sample(MonitorHz, [], hz)
  {
    var ws, vs := WattsSamples(devInfo, devices), VoltSamples(voltage);
    var e := ws + vs + [Sample(MonitorWatts, [], w), Sample(MonitorHz, [], hz)];
    assert RealtimeSamples(devInfo, w, hz, voltage, devices) == e;
    WattsSamplesAt(devInfo, devices);
    VoltSamplesAt(voltage);
    forall k | 0 <= k < |devices|
      ensures e[k] == Sample(DeviceWatts, DeviceLabels(devices[k].id, devInfo), devices[k].w)
    {
      assert e[k] == ws[k];
    }
    forall c | 0 <= c < |voltage|
      ensures e[|devices| + c] == Sample(MonitorVolts, [Itoa(c)], voltage[c])
    {
      assert e[|devices| + c] == vs[c];
    }
  }

  /**
   * The first realtime update emits, in this order, its device_watts
   * samples, its monitor_volts samples, one monitor_watts and one
   * monitor_hz, marks realtime as seen and adds every reported id.
   */
  lemma FirstRealtimeEmits(a: Aggregator, devInfo: map<string, Device>, msg: Message)
    requires msg.RealtimeUpdate? && !a.gotRealtime
    ensures var h := Handle(a, devInfo, msg);
            var n, m := |msg.devices|, |msg.voltage|;
            && |h.emitted| == n + m + 2
            && (forall k :: 0 <= k < n ==>
                  h.emitted[k] == Sample(DeviceWatts, DeviceLabels(msg.devices[k].id, devInfo), msg.devices[k].w))
            && (forall c :: 0 <= c < m ==> h.emitted[n + c] == Sample(MonitorVolts, [Itoa(c)], msg.voltage[c]))
            && h.emitted[n + m] == Sample(MonitorWatts, [], msg.w)
            && h.emitted[n + m + 1] == Sample(MonitorHz, [], msg.hz)
            && h.next.gotRealtime && h.next.gotStates == a.gotStates
            && (forall id :: id in h.next.seenWatts <==>
                  id in a.seenWatts || exists k :: 0 <= k < n && msg.devices[k].id == id)
  {
    RealtimeSamplesAt(devInfo, msg.w, msg.hz, msg.voltage, msg.devices);
    forall id | true
      ensures id in ReportedIds(msg.devices) <==> exists k :: 0 <= k < |msg.devices| && msg.devices[k].id == id
    {
      ReportedIdsSpec(msg.devices, id);
    }
  }

  /** The first device-state batch emits an active and an online sample per entry, and nothing else changes but the flag. */
  lemma FirstStatesEmits(a: Aggregator, devInfo: map<string, Device>, msg: Message)
    requires msg.DeviceStates? && !a.gotStates
    ensures var h := Handle(a, devInfo, msg);
            && |h.emitted| == 2 * |msg.states|
            && (forall k :: 0 <= k < |msg.states| ==>
                  h.emitted[2 * k] == Sample(DeviceActive, DeviceLabels(msg.states[k].deviceId, devInfo),
                                             if msg.states[k].mode == "active" then 1.0 else 0.0)
                  && h.emitted[2 * k + 1] == Sample(DeviceOnline, DeviceLabels(msg.states[k].deviceId, devInfo),
                                                    if msg.states[k].state == "online" then 1.0 else 0.0))
            && h.next == a.(gotStates := true)
  {
    StateSamplesAt(devInfo, msg.states);
  }

  // ---------------------------------------------------------------------------
  // One step of the state machine

  /** A repeat of a kind already folded in emits nothing, changes nothing, and returns nil. */
  lemma RepeatIsNoOp(a: Aggregator, devInfo: map<string, Device>, msg: Message)
    requires AlreadySeen(a, msg)
    ensures Handle(a, devInfo, msg) == Step(a, [], Continue)
  {
  }

  /**
   * A message of any other kind is ignored: nothing is emitted and nothing
   * changes, and the callback returns Stop iff both kinds were seen already.
   */
  lemma OtherKindIgnored(a: Aggregator, devInfo: map<string, Device>)
    ensures var h := Handle(a, devInfo, OtherMessage);
            && h.emitted == [] && h.next == a
            && (h.result == Stop <==> a.gotRealtime && a.gotStates)
  {
  }

  /**
   * The flags and the seen set only grow; Stop is returned exactly when the
   * message is not a repeat and both flags are set after it.
   */
  lemma HandleGrowsAndStops(a: Aggregator, devInfo: map<string, Device>, msg: Message)
    ensures var h := Handle(a, devInfo, msg);
            && (h.next.gotRealtime <==> a.gotRealtime || msg.RealtimeUpdate?)
            && (h.next.gotStates <==> a.gotStates || msg.DeviceStates?)
            && a.seenWatts <= h.next.seenWatts
            && (h.result == Stop <==> !AlreadySeen(a, msg) && h.next.gotRealtime && h.next.gotStates)
  {
  }

  lemma RealtimeSamplesAreStreamGauges(devInfo: map<string, Device>, w: real, hz: real,
                                        voltage: seq<real>, devices: seq<DevicePower>)
    ensures StreamGauges(RealtimeSamples(devInfo, w, hz, voltage, devices))
  {
    WattsSamplesAt(devInfo, devices);
    VoltSamplesAt(voltage);
  }

  lemma StateSamplesAreStreamGauges(devInfo: map<string, Device>, states: seq<DeviceState>)
    ensures StreamGauges(StateSamples(devInfo, states))
  {
    var e := StateSamples(devInfo, states);
    StateSamplesAt(devInfo, states);
    forall k | 0 <= k < |e|
      ensures Consistent(e[k]) && e[k].gauge != Up && e[k].gauge != ScrapeTime
    {
      var q := k / 2;
      if k == 2 * q {
        assert e[2 * q].gauge == DeviceActive;
      } else {
        assert k == 2 * q + 1 && e[2 * q + 1].gauge == DeviceOnline;
      }
    }
  }

  /** Everything one step emits is a stream gauge with the right number of labels. */
  lemma HandleEmitsStreamGauges(a: Aggregator, devInfo: map<string, Device>, msg: Message)
    ensures StreamGauges(Handle(a, devInfo, msg).emitted)
  {
    match msg
    case RealtimeUpdate(w, hz, voltage, devices) =>
      RealtimeSamplesAreStreamGauges(devInfo, w, hz, voltage, devices);
    case DeviceStates(states) =>
      StateSamplesAreStreamGauges(devInfo, states);
    case OtherMessage =>
  }

  // ---------------------------------------------------------------------------
  // A whole run of the stream

  /** The flags and the seen set never reset over a run. */
  lemma {:induction false} RunGrows(a: Aggregator, devInfo: map<string, Device>, msgs: seq<Message>)
    ensures var r := Run(a, devInfo, msgs);
            && (a.gotRealtime ==> r.final.gotRealtime)
            && (a.gotStates ==> r.final.gotStates)
            && a.seenWatts <= r.final.seenWatts
    decreases |msgs|
  {
    if msgs != [] {
      var h := Handle(a, devInfo, msgs[0]);
      if h.result != Stop {
        RunGrows(h.next, devInfo, msgs[1..]);
      }
    }
  }

  /** Starting short of done, the stream is stopped exactly when both kinds have been seen. */
  lemma {:induction false} RunStopsExactlyWhenDone(a: Aggregator, devInfo: map<string, Device>, msgs: seq<Message>)
    requires !(a.gotRealtime && a.gotStates)
    ensures var r := Run(a, devInfo, msgs);
            r.stopped <==> r.final.gotRealtime && r.final.gotStates
    decreases |msgs|
  {
    if msgs != [] {
      var h := Handle(a, devInfo, msgs[0]);
      if h.result != Stop {
        RunStopsExactlyWhenDone(h.next, devInfo, msgs[1..]);
      }
    }
  }

  /**
   * Starting short of done, the run ends having seen a realtime update
   * (device states) exactly when one was already seen or the stream
   * contains one.
   */
  lemma {:induction false} RunSeesKinds(a: Aggregator, devInfo: map<string, Device>, msgs: seq<Message>)
    requires !(a.gotRealtime && a.gotStates)
    ensures var r := Run(a, devInfo, msgs);
            && (r.final.gotRealtime <==> a.gotRealtime || exists i :: 0 <= i < |msgs| && msgs[i].RealtimeUpdate?)
            && (r.final.gotStates <==> a.gotStates || exists i :: 0 <= i < |msgs| && msgs[i].DeviceStates?)
    decreases |msgs|
  {
    if msgs != [] {
      var h := Handle(a, devInfo, msgs[0]);
      var tail := msgs[1..];
      assert forall i :: 0 <= i < |tail| ==> tail[i] == msgs[i + 1];
      if h.result != Stop {
        RunSeesKinds(h.next, devInfo, tail);
        if exists i :: 0 <= i < |msgs| && msgs[i].RealtimeUpdate? {
          var i :| 0 <= i < |msgs| && msgs[i].RealtimeUpdate?;
          if i > 0 {
            assert tail[i - 1].RealtimeUpdate?;
          }
        }
        if exists i :: 0 <= i < |msgs| && msgs[i].DeviceStates? {
          var i :| 0 <= i < |msgs| && msgs[i].DeviceStates?;
          if i > 0 {
            assert tail[i - 1].DeviceStates?;
          }
        }
      }
    }
  }

  /**
   * Delivering a second message of a kind already delivered, anywhere after
   * the first, changes neither the samples nor the final state.
   */
  lemma {:induction false} RepeatInsertionIsNoOp(a: Aggregator, devInfo: map<string, Device>,
                                                 msgs: seq<Message>, i: nat, x: Message)
    requires i <= |msgs|
    requires AlreadySeen(a, x) || exists j :: 0 <= j < i && SameKind(msgs[j], x)
    ensures Run(a, devInfo, msgs[..i] + [x] + msgs[i..]) == Run(a, devInfo, msgs)
    decreases i
  {
    var s := msgs[..i] + [x] + msgs[i..];
    if i == 0 {
      assert s == [x] + msgs;
      assert s[1..] == msgs;
      assert Handle(a, devInfo, x) == Step(a, [], Continue);
    } else {
      assert s[0] == msgs[0];
      var h := Handle(a, devInfo, msgs[0]);
      if h.result != Stop {
        var tail := msgs[1..];
        assert s[1..] == tail[..i - 1] + [x] + tail[i - 1..];
        if !AlreadySeen(h.next, x) {
          var j :| 0 <= j < i && SameKind(msgs[j], x);
          assert j > 0;
          assert SameKind(tail[j - 1], x);
        }
        RepeatInsertionIsNoOp(h.next, devInfo, tail, i - 1, x);
      }
    }
  }

  /** A run emits only stream gauges, each with the right number of labels. */
  lemma {:induction false} RunEmitsStreamGauges(a: Aggregator, devInfo: map<string, Device>, msgs: seq<Message>)
    ensures StreamGauges(Run(a, devInfo, msgs).emitted)
    decreases |msgs|
  {
    if msgs != [] {
      var h := Handle(a, devInfo, msgs[0]);
      HandleEmitsStreamGauges(a, devInfo, msgs[0]);
      if h.result != Stop {
        var rest := Run(h.next, devInfo, msgs[1..]);
        RunEmitsStreamGauges(h.next, devInfo, msgs[1..]);
        var e := h.emitted + rest.emitted;
        assert forall k :: |h.emitted| <= k < |e| ==> e[k] == rest.emitted[k - |h.emitted|];
      }
    }
  }

  /** Every device that ends up seen, and was not seen before, has a device_watts sample in the run. */
  lemma {:induction false} RunWattsCoverage(a: Aggregator, devInfo: map<string, Device>, msgs: seq<Message>, id: string)
    requires id in Run(a, devInfo, msgs).final.seenWatts && id !in a.seenWatts
    ensures var e := Run(a, devInfo, msgs).emitted;
            exists k :: 0 <= k < |e| && IsWattsFor(e[k], id)
    decreases |msgs|
  {
    var h := Handle(a, devInfo, msgs[0]);
    var e := Run(a, devInfo, msgs).emitted;
    if id in h.next.seenWatts {
      var msg := msgs[0];
      FirstRealtimeEmits(a, devInfo, msg);
      var k :| 0 <= k < |msg.devices| && msg.devices[k].id == id;
      assert IsWattsFor(h.emitted[k], id);
      assert e[k] == h.emitted[k];
    } else {
      var rest := Run(h.next, devInfo, msgs[1..]);
      RunWattsCoverage(h.next, devInfo, msgs[1..], id);
      var k :| 0 <= k < |rest.emitted| && IsWattsFor(rest.emitted[k], id);
      assert e[|h.emitted| + k] == rest.emitted[k];
    }
  }

  /** With distinct ids, a realtime update has one device_watts sample per reported id. */
  lemma {:induction false} WattsSamplesCount(devInfo: map<string, Device>, devices: seq<DevicePower>, id: string)
    requires DistinctIds(devices)
    ensures CountWattsFor(WattsSamples(devInfo, devices), id) == if id in ReportedIds(devices) then 1 else 0
    decreases |devices|
  {
    if devices != [] {
      var init := devices[..|devices| - 1];
      var last := devices[|devices| - 1];
      WattsSamplesCount(devInfo, init, id);
      forall k | 0 <= k < |init|
        ensures init[k].id != last.id
      {
        assert init[k] == devices[k];
      }
      ReportedIdsSpec(init, last.id);
      CountWattsForAppend(WattsSamples(devInfo, init), [WattsSample(devInfo, last)], id);
      assert CountWattsFor([WattsSample(devInfo, last)], id) == if last.id == id then 1 else 0 by {
        assert [WattsSample(devInfo, last)][..0] == [];
      }
    }
  }

  /** One step adds one device_watts sample per newly seen id, and none for any other id. */
  lemma HandleWattsCount(a: Aggregator, devInfo: map<string, Device>, msg: Message, id: string)
    requires !a.gotRealtime ==> a.seenWatts == {}
    requires msg.RealtimeUpdate? ==> DistinctIds(msg.devices)
    ensures var h := Handle(a, devInfo, msg);
            && (!h.next.gotRealtime ==> h.next.seenWatts == {})
            && (a.gotRealtime ==> h.next.seenWatts == a.seenWatts)
            && CountWattsFor(h.emitted, id) == if id in h.next.seenWatts - a.seenWatts then 1 else 0
  {
    var h := Handle(a, devInfo, msg);
    if msg.RealtimeUpdate? && !a.gotRealtime {
      var ws := WattsSamples(devInfo, msg.devices);
      var rest := VoltSamples(msg.voltage) + [Sample(MonitorWatts, [], msg.w), Sample(MonitorHz, [], msg.hz)];
      assert h.emitted == ws + rest;
      WattsSamplesCount(devInfo, msg.devices, id);
      VoltSamplesAt(msg.voltage);
      assert forall k :: 0 <= k < |rest| ==> rest[k].gauge != DeviceWatts;
      CountWattsForAbsent(rest, id);
      CountWattsForAppend(ws, rest, id);
    } else if msg.DeviceStates? && !a.gotStates {
      StateSamplesAt(devInfo, msg.states);
      forall k | 0 <= k < |h.emitted|
        ensures !IsWattsFor(h.emitted[k], id)
      {
        var q := k / 2;
        assert q < |msg.states|;
        if k == 2 * q {
          assert h.emitted[2 * q].gauge == DeviceActive;
        } else {
          assert k == 2 * q + 1 && h.emitted[2 * q + 1].gauge == DeviceOnline;
        }
      }
      CountWattsForAbsent(h.emitted, id);
    }
  }

  /**
   * From a state that is fresh or already past its realtime update, when
   * every realtime update reports distinct ids, a run emits exactly one
   * device_watts sample for each id it newly marks seen and none for any
   * other id.
   */
  lemma {:induction false} RunWattsCount(a: Aggregator, devInfo: map<string, Device>, msgs: seq<Message>, id: string)
    requires !a.gotRealtime ==> a.seenWatts == {}
    requires RealtimeIdsDistinct(msgs)
    ensures var r := Run(a, devInfo, msgs);
            && (a.gotRealtime ==> r.final.seenWatts == a.seenWatts)
            && CountWattsFor(r.emitted, id) == if id in r.final.seenWatts - a.seenWatts then 1 else 0
    decreases |msgs|
  {
    if msgs != [] {
      var h := Handle(a, devInfo, msgs[0]);
      HandleWattsCount(a, devInfo, msgs[0], id);
      if h.result != Stop {
        var tail := msgs[1..];
        assert forall i :: 0 <= i < |tail| ==> tail[i] == msgs[i + 1];
        RunWattsCount(h.next, devInfo, tail, id);
        CountWattsForAppend(h.emitted, Run(h.next, devInfo, tail).emitted, id);
      }
    }
  }
}
