/**
 * Properties of one collection: the catalog index, the zero backfill, the
 * up and scrape-time samples that close every collection, and the
 * device_watts coverage of the catalog.
 */
module CollectProps {
  import opened Sense
  import opened Metrics
  import opened ExporterSpec
  import opened CallbackProps

  /** A catalog that lists no device id twice. */
  predicate CatalogIdsDistinct(devices: seq<Device>)
  {
    forall i, j :: 0 <= i < j < |devices| ==> devices[i].id != devices[j].id
  }

  // ---------------------------------------------------------------------------
  // The device index

  /** The index holds exactly the catalog's ids. */
  lemma {:induction false} IndexKeys(devices: seq<Device>, id: string)
    ensures id in Index(devices) <==> exists k :: 0 <= k < |devices| && devices[k].id == id
    decreases |devices|
  {
    if devices != [] {
      var init := devices[..|devices| - 1];
      IndexKeys(init, id);
      if id in Index(init) {
        var k :| 0 <= k < |init| && init[k].id == id;
        assert devices[k].id == id;
      }
      if exists k :: 0 <= k < |devices| && devices[k].id == id {
        var k :| 0 <= k < |devices| && devices[k].id == id;
        if k < |init| {
          assert init[k].id == id;
        }
      }
    }
  }

  /** An id maps to the last catalog entry that carries it. */
  lemma {:induction false} IndexLastWins(devices: seq<Device>, k: nat)
    requires k < |devices|
    requires forall j :: k < j < |devices| ==> devices[j].id != devices[k].id
    ensures devices[k].id in Index(devices) && Index(devices)[devices[k].id] == devices[k]
    decreases |devices|
  {
    if k < |devices| - 1 {
      var init := devices[..|devices| - 1];
      assert devices[|devices| - 1].id != devices[k].id;
      IndexLastWins(init, k);
    }
  }

  // ---------------------------------------------------------------------------
  // The zero backfill

  /** Backfill follows catalog order: the backfill of a concatenation is the concatenation of the backfills. */
  lemma {:induction false} BackfillAppend(ds1: seq<Device>, ds2: seq<Device>, devInfo: map<string, Device>, seen: set<string>)
    ensures Backfill(ds1 + ds2, devInfo, seen) == Backfill(ds1, devInfo, seen) + Backfill(ds2, devInfo, seen)
    decreases |ds2|
  {
    if ds2 == [] {
      assert ds1 + ds2 == ds1;
    } else {
      var init := ds2[..|ds2| - 1];
      assert (ds1 + ds2)[..|ds1 + ds2| - 1] == ds1 + init;
      BackfillAppend(ds1, init, devInfo, seen);
    }
  }

  /** `s` is the zero sample of some catalog entry whose id was never reported. */
  predicate BackfilledFrom(s: Sample, devices: seq<Device>, devInfo: map<string, Device>, seen: set<string>)
  {
    exists k :: 0 <= k < |devices| && devices[k].id !in seen && s == ZeroWatts(devices[k], devInfo)
  }

  predicate HasId(devices: seq<Device>, id: string)
  {
    exists k :: 0 <= k < |devices| && devices[k].id == id
  }

  /** Every backfilled sample is a zero device_watts for a catalog entry whose id was never reported. */
  lemma {:induction false} BackfillOnlyUnseen(devices: seq<Device>, devInfo: map<string, Device>, seen: set<string>)
    ensures forall j :: 0 <= j < |Backfill(devices, devInfo, seen)| ==>
              BackfilledFrom(Backfill(devices, devInfo, seen)[j], devices, devInfo, seen)
    decreases |devices|
  {
    if devices != [] {
      var init := devices[..|devices| - 1];
      var last := devices[|devices| - 1];
      var b := Backfill(devices, devInfo, seen);
      var bi := Backfill(init, devInfo, seen);
      assert b == bi + (if last.id in seen then [] else [ZeroWatts(last, devInfo)]);
      BackfillOnlyUnseen(init, devInfo, seen);
      forall j | 0 <= j < |b|
        ensures BackfilledFrom(b[j], devices, devInfo, seen)
      {
        if j < |bi| {
          assert BackfilledFrom(bi[j], init, devInfo, seen);
          var k :| 0 <= k < |init| && init[k].id !in seen && bi[j] == ZeroWatts(init[k], devInfo);
          assert devices[k] == init[k];
        } else {
          assert b[j] == ZeroWatts(devices[|devices| - 1], devInfo);
        }
      }
    }
  }

  /** Every catalog entry whose id was never reported gets a zero device_watts sample with its labels. */
  lemma {:induction false} BackfillCoversUnseen(devices: seq<Device>, devInfo: map<string, Device>, seen: set<string>, k: nat)
    requires k < |devices| && devices[k].id !in seen
    ensures ZeroWatts(devices[k], devInfo) in Backfill(devices, devInfo, seen)
    decreases |devices|
  {
    var init := devices[..|devices| - 1];
    var last := devices[|devices| - 1];
    var b := Backfill(devices, devInfo, seen);
    assert b == Backfill(init, devInfo, seen) + (if last.id in seen then [] else [ZeroWatts(last, devInfo)]);
    if k < |devices| - 1 {
      assert init[k] == devices[k];
      BackfillCoversUnseen(init, devInfo, seen, k);
    }
  }

  /** With distinct catalog ids, each unseen catalog id is backfilled exactly once and nothing else is. */
  lemma {:induction false} BackfillCount(devices: seq<Device>, devInfo: map<string, Device>, seen: set<string>, id: string)
    requires CatalogIdsDistinct(devices)
    ensures CountWattsFor(Backfill(devices, devInfo, seen), id) == if id !in seen && HasId(devices, id) then 1 else 0
    decreases |devices|
  {
    if devices != [] {
      var init := devices[..|devices| - 1];
      var d := devices[|devices| - 1];
      var tail: seq<Sample> := if d.id in seen then [] else [ZeroWatts(d, devInfo)];
      assert Backfill(devices, devInfo, seen) == Backfill(init, devInfo, seen) + tail;
      assert CatalogIdsDistinct(init);
      BackfillCount(init, devInfo, seen, id);
      CountWattsForAppend(Backfill(init, devInfo, seen), tail, id);
      TailCount(tail, d, devInfo, seen, id);
      HasIdSplit(devices, id);
    }
  }

  lemma TailCount(tail: seq<Sample>, d: Device, devInfo: map<string, Device>, seen: set<string>, id: string)
    requires tail == if d.id in seen then [] else [ZeroWatts(d, devInfo)]
    ensures CountWattsFor(tail, id) == if d.id !in seen && d.id == id then 1 else 0
  {
    if tail != [] {
      assert tail[..0] == [];
    }
  }

  /** In a catalog with distinct ids, an id is carried by the last entry or by an earlier one, never both. */
  lemma HasIdSplit(devices: seq<Device>, id: string)
    requires devices != [] && CatalogIdsDistinct(devices)
    ensures var init := devices[..|devices| - 1];
            && (HasId(devices, id) <==> HasId(init, id) || devices[|devices| - 1].id == id)
            && !(HasId(init, id) && devices[|devices| - 1].id == id)
  {
    var init := devices[..|devices| - 1];
    if HasId(devices, id) {
      var k :| 0 <= k < |devices| && devices[k].id == id;
      if k < |init| {
        assert init[k].id == id;
      }
    }
    if HasId(init, id) {
      var k :| 0 <= k < |init| && init[k].id == id;
      assert devices[k].id == id;
    }
  }

  lemma BackfillIsStreamGauges(devices: seq<Device>, devInfo: map<string, Device>, seen: set<string>)
    ensures StreamGauges(Backfill(devices, devInfo, seen))
  {
    BackfillOnlyUnseen(devices, devInfo, seen);
  }

  // ---------------------------------------------------------------------------
  // One whole collection

  /** A failed catalog fetch yields up = 0 and the scrape time, and nothing else. */
  lemma FetchFailureEmitsOnlyUpAndScrapeTime(up: Upstream)
    requires up.devices.Err?
    ensures CollectSamples(up) == [Sample(Up, [], 0.0), Sample(ScrapeTime, [], up.elapsedSeconds)]
  {
  }

  /**
   * Every collection ends with up, then scrape time, and carries exactly
   * one of each; up is 1 exactly when neither the catalog fetch nor the
   * stream returned an error, and 0 otherwise.
   */
  lemma CollectEndsWithUpAndScrapeTime(up: Upstream)
    ensures var out := CollectSamples(up);
            && |out| >= 2
            && out[|out| - 2] == Sample(Up, [], if CollectionOk(up) then 1.0 else 0.0)
            && out[|out| - 1] == Sample(ScrapeTime, [], up.elapsedSeconds)
            && CountGauge(out, Up) == 1
            && CountGauge(out, ScrapeTime) == 1
  {
    var out := CollectSamples(up);
    var tail := Deferred(if CollectionOk(up) then 1.0 else 0.0, up.elapsedSeconds);
    var body: seq<Sample> := [];
    if up.devices.Ok? {
      var devInfo := Index(up.devices.value);
      var run := Run(Fresh, devInfo, up.stream.messages);
      body := run.emitted + Backfill(up.devices.value, devInfo, run.final.seenWatts);
      RunEmitsStreamGauges(Fresh, devInfo, up.stream.messages);
      BackfillIsStreamGauges(up.devices.value, devInfo, run.final.seenWatts);
      assert StreamGauges(body);
    }
    assert out == body + tail;
    CountGaugeAbsent(body, Up);
    CountGaugeAbsent(body, ScrapeTime);
    CountGaugeAppend(body, tail, Up);
    CountGaugeAppend(body, tail, ScrapeTime);
    DeferredCounts(if CollectionOk(up) then 1.0 else 0.0, up.elapsedSeconds);
  }

  /**
   * A stream error keeps every sample already emitted and the backfill: the
   * only difference from the same collection without the error is up = 0.
   */
  lemma StreamErrorOnlyLowersUp(up: Upstream, e: string)
    requires up.devices.Ok?
    ensures var bad := CollectSamples(up.(stream := up.stream.(err := Some(e))));
            var good := CollectSamples(up.(stream := up.stream.(err := None)));
            && |bad| == |good| >= 2
            && bad[..|bad| - 2] == good[..|good| - 2]
            && bad[|bad| - 2] == Sample(Up, [], 0.0) && good[|good| - 2] == Sample(Up, [], 1.0)
            && bad[|bad| - 1] == good[|good| - 1]
  {
    var devices := up.devices.value;
    var devInfo := Index(devices);
    var run := Run(Fresh, devInfo, up.stream.messages);
    var body := run.emitted + Backfill(devices, devInfo, run.final.seenWatts);
    var bad := CollectSamples(up.(stream := up.stream.(err := Some(e))));
    var good := CollectSamples(up.(stream := up.stream.(err := None)));
    assert bad == body + Deferred(0.0, up.elapsedSeconds);
    assert good == body + Deferred(1.0, up.elapsedSeconds);
    assert bad[..|bad| - 2] == body == good[..|good| - 2];
  }

  lemma DeferredCounts(ok: real, elapsedSeconds: real)
    ensures CountGauge(Deferred(ok, elapsedSeconds), Up) == 1
    ensures CountGauge(Deferred(ok, elapsedSeconds), ScrapeTime) == 1
  {
    var tail := Deferred(ok, elapsedSeconds);
    var head := tail[..1];
    assert head[..0] == [];
    assert CountGauge(head, Up) == 1 && CountGauge(head, ScrapeTime) == 0;
  }

  /** Every sample of a collection has as many label values as its descriptor has label names. */
  lemma CollectSamplesConsistent(up: Upstream)
    ensures forall k :: 0 <= k < |CollectSamples(up)| ==> Consistent(CollectSamples(up)[k])
  {
    if up.devices.Ok? {
      var devInfo := Index(up.devices.value);
      var run := Run(Fresh, devInfo, up.stream.messages);
      RunEmitsStreamGauges(Fresh, devInfo, up.stream.messages);
      BackfillIsStreamGauges(up.devices.value, devInfo, run.final.seenWatts);
    }
  }

  /** After a fetched catalog, every catalog device has at least one device_watts sample. */
  lemma EveryCatalogDeviceHasWatts(up: Upstream, d: Device)
    requires up.devices.Ok? && d in up.devices.value
    ensures var out := CollectSamples(up);
            exists k :: 0 <= k < |out| && IsWattsFor(out[k], d.id)
  {
    var devices := up.devices.value;
    var devInfo := Index(devices);
    var run := Run(Fresh, devInfo, up.stream.messages);
    var b := Backfill(devices, devInfo, run.final.seenWatts);
    var out := CollectSamples(up);
    assert out == run.emitted + b + Deferred(if up.stream.err.None? then 1.0 else 0.0, up.elapsedSeconds);
    if d.id in run.final.seenWatts {
      RunWattsCoverage(Fresh, devInfo, up.stream.messages, d.id);
      var k :| 0 <= k < |run.emitted| && IsWattsFor(run.emitted[k], d.id);
      assert out[k] == run.emitted[k];
    } else {
      var i :| 0 <= i < |devices| && devices[i] == d;
      BackfillCoversUnseen(devices, devInfo, run.final.seenWatts, i);
      var j :| 0 <= j < |b| && b[j] == ZeroWatts(d, devInfo);
      assert out[|run.emitted| + j] == b[j];
    }
  }

  /**
   * When the catalog and every realtime update list each id at most once,
   * every catalog device has exactly one device_watts sample: the reported
   * one or the zero backfill.
   */
  lemma ExactlyOneWattsPerCatalogDevice(up: Upstream, d: Device)
    requires up.devices.Ok? && d in up.devices.value
    requires CatalogIdsDistinct(up.devices.value)
    requires RealtimeIdsDistinct(up.stream.messages)
    ensures CountWattsFor(CollectSamples(up), d.id) == 1
  {
    var devices := up.devices.value;
    var devInfo := Index(devices);
    var run := Run(Fresh, devInfo, up.stream.messages);
    var b := Backfill(devices, devInfo, run.final.seenWatts);
    var tail := Deferred(if up.stream.err.None? then 1.0 else 0.0, up.elapsedSeconds);
    assert CollectSamples(up) == run.emitted + b + tail;
    RunWattsCount(Fresh, devInfo, up.stream.messages, d.id);
    var i :| 0 <= i < |devices| && devices[i] == d;
    BackfillCount(devices, devInfo, run.final.seenWatts, d.id);
    assert HasId(devices, d.id) by {
      assert devices[i].id == d.id;
    }
    CountWattsForAbsent(tail, d.id);
    CountWattsForAppend(run.emitted, b, d.id);
    CountWattsForAppend(run.emitted + b, tail, d.id);
  }
}
