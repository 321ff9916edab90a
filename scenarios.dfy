/**
 * Concrete collections worked out against the specification: a monitor
 * with two catalog devices of which only one reports watts, a stream that
 * fails after its realtime update, a catalog that lists a device twice, and
 * a realtime update that reports a device twice.
 */
module Scenarios {
  import opened Sense
  import opened Metrics
  import opened ExporterSpec

  const D1: Device := Device("D1", "Fridge", "Appliance", "Acme", "F100")
  const D2: Device := Device("D2", "Heater", "Appliance", "", "")

  /** The label values expected on D1's and D2's per-device samples. */
  const D1Labels: seq<string> := ["D1", "Fridge", "Appliance", "Acme", "F100"]
  const D2Labels: seq<string> := ["D2", "Heater", "Appliance", "", ""]

  const Catalog: seq<Device> := [D1, D2]
  const Power: seq<DevicePower> := [DevicePower("D1", 25.5)]
  const Volts: seq<real> := [120.5, 119.8]
  const States: seq<DeviceState> := [DeviceState("D1", "active", "online"), DeviceState("D2", "inactive", "offline")]
  const Messages: seq<Message> := [RealtimeUpdate(1200.0, 60.0, Volts, Power), DeviceStates(States)]

  lemma CatalogIndex()
    ensures Index(Catalog) == map["D1" := D1, "D2" := D2]
    ensures DeviceLabels("D1", Index(Catalog)) == D1Labels
    ensures DeviceLabels("D2", Index(Catalog)) == D2Labels
  {
    IndexOfD1();
    assert Catalog[..1] == [D1];
    assert Index(Catalog) == Index([D1])[D2.id := D2];
  }

  lemma RealtimeOfScenario(devInfo: map<string, Device>)
    requires devInfo == map["D1" := D1, "D2" := D2]
    ensures ReportedIds(Power) == {"D1"}
    ensures RealtimeSamples(devInfo, 1200.0, 60.0, Volts, Power) ==
      [Sample(DeviceWatts, D1Labels, 25.5),
       Sample(MonitorVolts, ["0"], 120.5),
       Sample(MonitorVolts, ["1"], 119.8),
       Sample(MonitorWatts, [], 1200.0),
       Sample(MonitorHz, [], 60.0)]
  {
    assert Power[..0] == [];
    assert WattsSamples(devInfo, Power) == [Sample(DeviceWatts, D1Labels, 25.5)];
    assert Volts[..1] == [120.5] && [120.5][..0] == [];
    assert Itoa(0) == "0" && Itoa(1) == "1";
    assert VoltSamples(Volts) == [Sample(MonitorVolts, ["0"], 120.5), Sample(MonitorVolts, ["1"], 119.8)];
  }

  lemma StatesOfScenario(devInfo: map<string, Device>)
    requires devInfo == map["D1" := D1, "D2" := D2]
    ensures StateSamples(devInfo, States) ==
      [Sample(DeviceActive, D1Labels, 1.0), Sample(DeviceOnline, D1Labels, 1.0),
       Sample(DeviceActive, D2Labels, 0.0), Sample(DeviceOnline, D2Labels, 0.0)]
  {
    assert States[..1] == [States[0]] && [States[0]][..0] == [];
    assert StateSamples(devInfo, [States[0]]) == StatePair(devInfo, States[0]);
    assert StateSamples(devInfo, States) == StatePair(devInfo, States[0]) + StatePair(devInfo, States[1]);
  }

  lemma RunOfScenario(devInfo: map<string, Device>)
    requires devInfo == map["D1" := D1, "D2" := D2]
    ensures Run(Fresh, devInfo, Messages) ==
      RunResult(Aggregator(true, true, {"D1"}),
                RealtimeSamples(devInfo, 1200.0, 60.0, Volts, Power) + StateSamples(devInfo, States),
                true)
  {
    RealtimeOfScenario(devInfo);
    var afterRealtime := Aggregator(true, false, {"D1"});
    assert Handle(Fresh, devInfo, Messages[0]) ==
      Step(afterRealtime, RealtimeSamples(devInfo, 1200.0, 60.0, Volts, Power), Continue);
    assert Messages[1..] == [DeviceStates(States)];
    assert Run(afterRealtime, devInfo, Messages[1..]) ==
      RunResult(Aggregator(true, true, {"D1"}), StateSamples(devInfo, States), true);
  }

  lemma BackfillOfScenario(devInfo: map<string, Device>)
    requires devInfo == map["D1" := D1, "D2" := D2]
    ensures Backfill(Catalog, devInfo, {"D1"}) == [Sample(DeviceWatts, D2Labels, 0.0)]
  {
    assert Catalog[..1] == [D1] && [D1][..0] == [];
    assert Backfill(Catalog[..1], devInfo, {"D1"}) == [];
  }

  /**
   * D1 reports 25.5 W and is active and online; D2 never reports watts and
   * is inactive and offline; the voltages 120.5 and 119.8 are channels 0
   * and 1. D2's watts are backfilled with zero and up is 1.
   */
  lemma TwoDeviceScrape()
    ensures CollectSamples(Upstream(Ok(Catalog), StreamScript(Messages, None), 0.25))
            == [Sample(DeviceWatts, D1Labels, 25.5),
                Sample(MonitorVolts, ["0"], 120.5),
                Sample(MonitorVolts, ["1"], 119.8),
                Sample(MonitorWatts, [], 1200.0),
                Sample(MonitorHz, [], 60.0),
                Sample(DeviceActive, D1Labels, 1.0),
                Sample(DeviceOnline, D1Labels, 1.0),
                Sample(DeviceActive, D2Labels, 0.0),
                Sample(DeviceOnline, D2Labels, 0.0),
                Sample(DeviceWatts, D2Labels, 0.0),
                Sample(Up, [], 1.0),
                Sample(ScrapeTime, [], 0.25)]
  {
    CatalogIndex();
    var devInfo := Index(Catalog);
    RealtimeOfScenario(devInfo);
    StatesOfScenario(devInfo);
    RunOfScenario(devInfo);
    BackfillOfScenario(devInfo);
  }

  /** A stream that fails after the realtime update keeps its samples but reports up = 0. */
  lemma StreamFailureKeepsPartialData()
    ensures CollectSamples(Upstream(
              Ok([D1]),
              StreamScript([RealtimeUpdate(1200.0, 60.0, [], [DevicePower("D1", 25.5)])], Some("connection reset")),
              2.0))
            == [Sample(DeviceWatts, D1Labels, 25.5),
                Sample(MonitorWatts, [], 1200.0),
                Sample(MonitorHz, [], 60.0),
                Sample(Up, [], 0.0),
                Sample(ScrapeTime, [], 2.0)]
  {
    IndexOfD1();
    var devInfo := Index([D1]);
    var power := [DevicePower("D1", 25.5)];
    assert power[..0] == [];
    assert ReportedIds(power) == {"D1"};
    assert WattsSamples(devInfo, power) == [Sample(DeviceWatts, D1Labels, 25.5)];
    var msgs := [RealtimeUpdate(1200.0, 60.0, [], power)];
    assert msgs[1..] == [];
    assert Run(Fresh, devInfo, msgs).final.seenWatts == {"D1"};
    assert Backfill([D1], devInfo, {"D1"}) == [];
  }

  lemma IndexOfD1()
    ensures Index([D1]) == map["D1" := D1]
  {
    assert [D1][..0] == [];
    assert Index([D1]) == map[][D1.id := D1];
  }

  /** A catalog that lists D1 twice, with a stream that reports nothing: D1 is backfilled twice. */
  lemma DuplicateCatalogIdGetsTwoWatts()
    ensures CountWattsFor(CollectSamples(Upstream(Ok([D1, D1]), StreamScript([], None), 1.0)), "D1") == 2
  {
    var devInfo := Index([D1, D1]);
    var b := Backfill([D1, D1], devInfo, {});
    BackfillTwice(devInfo);
    assert CollectSamples(Upstream(Ok([D1, D1]), StreamScript([], None), 1.0)) == b + Deferred(1.0, 1.0);
    CountWattsForAppend(b, Deferred(1.0, 1.0), "D1");
    CountWattsForAbsent(Deferred(1.0, 1.0), "D1");
    assert b[..1] == [b[0]] && [b[0]][..0] == [];
  }

  lemma BackfillTwice(devInfo: map<string, Device>)
    ensures Backfill([D1, D1], devInfo, {}) == [ZeroWatts(D1, devInfo), ZeroWatts(D1, devInfo)]
  {
    assert [D1, D1][..1] == [D1] && [D1][..0] == [];
    assert Backfill([D1], devInfo, {}) == [ZeroWatts(D1, devInfo)];
  }

  /** A realtime update that reports D1 twice yields two device_watts samples for it. */
  lemma DuplicateReportGetsTwoWatts()
    ensures var power := [DevicePower("D1", 1.0), DevicePower("D1", 2.0)];
            CountWattsFor(Run(Fresh, Index([D1]), [RealtimeUpdate(0.0, 60.0, [], power)]).emitted, "D1") == 2
  {
    var power := [DevicePower("D1", 1.0), DevicePower("D1", 2.0)];
    var devInfo := Index([D1]);
    var msgs := [RealtimeUpdate(0.0, 60.0, [], power)];
    assert power[..1] == [power[0]] && [power[0]][..0] == [];
    assert WattsSamples(devInfo, power[..1]) == [WattsSample(devInfo, power[0])];
    var ws := WattsSamples(devInfo, power);
    assert ws == [WattsSample(devInfo, power[0]), WattsSample(devInfo, power[1])];
    var tail := [Sample(MonitorWatts, [], 0.0), Sample(MonitorHz, [], 60.0)];
    assert msgs[1..] == [];
    assert Run(Fresh, devInfo, msgs).emitted == ws + tail;
    CountWattsForAppend(ws, tail, "D1");
    assert ws[..1] == [ws[0]] && [ws[0]][..0] == [];
    assert tail[..1] == [tail[0]] && [tail[0]][..0] == [];
  }
}
