# sense-exporter collector, modelled in Dafny

This project models the core of the Prometheus exporter for Sense energy
monitors: the per-monitor collector. On every scrape, for one monitor, the
collector does four things:

- it fetches the monitor's device catalog and indexes it by device id;
- it opens the realtime stream and feeds each message to a callback;
- it backfills a zero `device_watts` sample for catalog devices that never
  reported watts;
- on every exit path it emits `sense_monitor_up` and then
  `sense_scrape_time_seconds`.

The callback is a small state machine with two flags (`gotRealtime`,
`gotStates`) and a set of device ids seen in watts. The first `RealtimeUpdate`
becomes `device_watts`, `monitor_volts`, `monitor_watts` and `monitor_hz`
samples. The first `DeviceStates` becomes `device_active` and
`device_online` samples. A repeat of either kind does nothing. Once both
kinds have been seen, the callback returns the library's `Stop` sentinel.

Files and modules:

- `sense.dfy` (`Sense`): the data the client library hands to the exporter.
  This is the catalog entry, the two stream message kinds and a catch-all
  for any other kind, and the scripted outcome of one stream call.
- `metrics.dfy` (`Metrics`): the eight gauge descriptors, `Describe`, the
  sample type, sample counting, and `strconv.Itoa` for the channel label.
- `exporter_spec.dfy` (`ExporterSpec`): the specification as functions.
  - `Handle` is one callback step.
  - `Run` is the stream, halting at the first `Stop`.
  - `Index` is the device map.
  - `Backfill` is the zero-watts backfill.
  - `CollectSamples` is the whole output of one `Collect`.
- `exporter.dfy` (`Exporter`): the imperative model.
  - The output channel is the class `MetricSink`, whose `sent` sequence only
    grows.
  - `CallbackContainer` is a class whose fields the callback updates in
    place.
  - `Stream` is a loop that feeds a finite message list to the callback.
  - `Collect` builds the index in a loop, drives the stream, backfills in a
    loop, and sends `up` and the scrape time last.
  - Each method's postcondition ties the channel contents and the new state
    to the specification functions.
- `callback_props.dfy` (`CallbackProps`) and `collect_props.dfy`
  (`CollectProps`): the properties of the callback and of one collection.
- `scenarios.dfy` (`Scenarios`): four concrete inputs worked out in full: a
  two-device scrape, a stream that fails after its realtime update, a catalog
  that lists a device twice, and an update that reports a device twice.

Inputs that come from outside the core are parameters:

- the catalog answer of `GetDevices`, which is a device list or an error;
- the messages the stream delivers and the error value `Stream` returns;
- the elapsed seconds of the scrape.

Gauge values are `real`. The core never computes a value other than the
constants 0 and 1; every other value is passed through unchanged.

Behaviour of the code worth knowing:

- A repeated message kind returns nil at once (exporter.go:192-194,
  229-231), even when both flags are already set. Stop is returned exactly
  when a message that is not a repeat leaves both flags set. For a stream
  that starts short of done, the run stops iff both flags are set at its end
  (`RunStopsExactlyWhenDone`).
- Nothing removes duplicate ids. A catalog that repeats an id is backfilled
  once per entry (exporter.go:164-177), and a realtime update that reports
  an id twice sends two `device_watts` samples for it (exporter.go:195-207).
  `DuplicateCatalogIdGetsTwoWatts` and `DuplicateReportGetsTwoWatts` show
  both. `ExactlyOneWattsPerCatalogDevice` therefore assumes distinct ids.
  Without that assumption, `EveryCatalogDeviceHasWatts` proves "at least one".
- Backfilled samples take their labels from the index (`devInfo[d.ID]`), not
  from the catalog entry itself. With a repeated id, that is the last entry
  carrying it (`IndexLastWins`).
- The help text of `sense_monitor_watts` repeats the volts text. It is kept
  as written.

## Model

| member | source | states |
|---|---|---|
| `Metrics.DescOf` | exporter.go:33-62 | each gauge's descriptor; the three per-device gauges have five label names, `monitor_volts` has one, the others have none |
| `Metrics.Describe` | exporter.go:96-105 | the advertised descriptors are exactly eight, in the order up, scrape time, device watts, volts, monitor watts, hz, active, online; they cover every gauge and have pairwise distinct names |
| `Metrics.Itoa` | exporter.go:213 | the channel label is a non-empty decimal numeral of digits only, with no leading zero; the label of 0 is exactly "0" |
| `Metrics.ItoaValue` | exporter.go:213 | the channel label, read back as a decimal numeral, is the channel index itself |
| `Metrics.ItoaInjective` | exporter.go:208-214 | distinct channel indices get distinct labels |
| `Exporter.CallbackContainer.constructor` | exporter.go:152-156 | the container starts with both flags false, no device seen, and the given channel and index |
| `Exporter.CallbackContainer.Callback` | exporter.go:188-268 | the new flags and seen set, the samples appended to the channel, and the return value are those of one `Handle` step from the old state |
| `Exporter.CallbackContainer.FoldRealtime` | exporter.go:195-226 | appends the realtime samples in order, adds every reported id to the seen set, and sets `gotRealtime` |
| `Exporter.CallbackContainer.SendVolts` | exporter.go:208-215 | appends the `monitor_volts` samples of a voltage array, in channel order |
| `Exporter.CallbackContainer.FoldStates` | exporter.go:232-261 | appends an active and an online sample per state entry and sets `gotStates`; the seen set is unchanged |
| `Exporter.Stream` | exporter.go:157 | the callback's final state and the channel contents are those of `Run`, which halts at the first Stop; the returned error is the stream's own |
| `Exporter.IndexDevices` | exporter.go:147-150 | the map built by the loop is the catalog index `Index` |
| `Exporter.SendBackfill` | exporter.go:164-177 | appends exactly `Backfill` of the catalog for the final seen set |
| `Exporter.Collect` | exporter.go:107-178 | the channel gains exactly `CollectSamples` of the catalog answer, the stream and the elapsed time |
| `CallbackProps.ReportedIdsSpec` | exporter.go:206 | an id is marked seen by an update iff some entry of the update reports it |
| `CallbackProps.WattsSamplesAt` | exporter.go:195-207 | one `device_watts` sample per reported device, in order, with its watts and its catalog labels |
| `CallbackProps.VoltSamplesAt` | exporter.go:208-215 | one `monitor_volts` sample per voltage entry, in order, labelled with its zero-based index |
| `CallbackProps.VoltChannelsDistinct` | exporter.go:208-215 | no two `monitor_volts` samples of one update share a channel label |
| `CallbackProps.StateSamplesAt` | exporter.go:232-260 | for each state entry in order, an active then an online sample; active is 1 iff the mode is "active", online is 1 iff the state is "online", otherwise 0 |
| `CallbackProps.UnknownDeviceLabels` | exporter.go:201-204 | a device id missing from the catalog still gets its samples, with empty name, type, make and model |
| `CallbackProps.RealtimeSamplesAt` | exporter.go:195-225 | a realtime update's samples are n watts, then m volts labelled 0..m-1, then `monitor_watts`, then `monitor_hz` |
| `CallbackProps.FirstRealtimeEmits` | exporter.go:195-226 | the first realtime update emits n watts, then m volts, then one `monitor_watts`, then one `monitor_hz`; it sets `gotRealtime`, keeps `gotStates`, and adds exactly the reported ids |
| `CallbackProps.FirstStatesEmits` | exporter.go:232-261 | the first state batch emits 2n samples in active/online pairs; only `gotStates` changes |
| `CallbackProps.RepeatIsNoOp` | exporter.go:192-194 | a message of a kind already seen (also exporter.go:229-231) emits nothing, changes nothing, and returns nil |
| `CallbackProps.OtherKindIgnored` | exporter.go:189-267 | a message of any other kind emits nothing and changes nothing; Stop is returned iff both kinds were seen already |
| `CallbackProps.HandleGrowsAndStops` | exporter.go:264-267 | a step sets the flag of its kind and never clears one; the seen set only grows; Stop is returned iff the message is not a repeat and both flags are set afterwards |
| `CallbackProps.RealtimeSamplesAreStreamGauges` | exporter.go:195-225 | realtime samples are never up or scrape time, and each has as many label values as its descriptor has label names |
| `CallbackProps.StateSamplesAreStreamGauges` | exporter.go:240-259 | the same for state samples |
| `CallbackProps.HandleEmitsStreamGauges` | exporter.go:188-262 | the same for any single step |
| `CallbackProps.RunGrows` | exporter.go:206-261 | over a whole stream the flags and the seen set never reset |
| `CallbackProps.RunStopsExactlyWhenDone` | exporter.go:264-267 | from a state short of done, the stream is stopped iff both kinds have been seen at its end |
| `CallbackProps.RunSeesKinds` | exporter.go:188-267 | from a state short of done, the run ends with `gotRealtime` (`gotStates`) iff it was set already or the stream contains such a message |
| `CallbackProps.RepeatInsertionIsNoOp` | exporter.go:191-231 | inserting a second message of a kind already delivered, anywhere after the first, leaves the samples and the final state unchanged |
| `CallbackProps.RunEmitsStreamGauges` | exporter.go:188-262 | a run never emits up or scrape time, and all its samples have the right number of labels |
| `CallbackProps.RunWattsCoverage` | exporter.go:195-207 | every id newly marked seen during a run has a `device_watts` sample among the run's output |
| `CallbackProps.WattsSamplesCount` | exporter.go:195-207 | with distinct ids in an update, it carries exactly one `device_watts` sample per reported id and none for any other |
| `CallbackProps.HandleWattsCount` | exporter.go:188-262 | from a reachable state and with distinct ids in each realtime update, one step emits exactly one `device_watts` sample per newly seen id and none for any other id |
| `CallbackProps.RunWattsCount` | exporter.go:188-267 | with distinct ids in each realtime update, the same over a whole run, from a fresh state or one past its realtime update |
| `CollectProps.IndexKeys` | exporter.go:147-150 | the device index holds exactly the catalog's ids |
| `CollectProps.IndexLastWins` | exporter.go:147-150 | an id maps to the last catalog entry carrying it |
| `CollectProps.BackfillAppend` | exporter.go:164-177 | the backfill follows catalog order: backfilling a concatenation concatenates the backfills |
| `CollectProps.BackfillOnlyUnseen` | exporter.go:164-177 | every backfilled sample is a zero `device_watts` sample for a catalog entry whose id was never reported |
| `CollectProps.BackfillCoversUnseen` | exporter.go:164-177 | every catalog entry whose id was never reported is backfilled with zero and its labels |
| `CollectProps.BackfillCount` | exporter.go:164-177 | with distinct catalog ids, an id is backfilled once if it is in the catalog and unseen, and otherwise never |
| `CollectProps.BackfillIsStreamGauges` | exporter.go:166-175 | backfilled samples are never up or scrape time, and have five label values |
| `CollectProps.FetchFailureEmitsOnlyUpAndScrapeTime` | exporter.go:138-144 | if the catalog fetch fails, the whole output is `up = 0` followed by the scrape time |
| `CollectProps.StreamErrorOnlyLowersUp` | exporter.go:157-177 | for any successful fetch, a stream error leaves every stream and backfill sample and the scrape time as they are; only up drops from 1 to 0 |
| `CollectProps.DeferredCounts` | exporter.go:121-136 | the deferred closure emits one up and one scrape-time sample |
| `CollectProps.CollectEndsWithUpAndScrapeTime` | exporter.go:119-162 | every collection ends with up and then scrape time, each exactly once; up is 1 iff neither the fetch nor the stream returned an error |
| `CollectProps.CollectSamplesConsistent` | exporter.go:107-178 | every emitted sample has as many label values as its descriptor has label names, so the constant-metric constructor's label-count check never panics |
| `CollectProps.EveryCatalogDeviceHasWatts` | exporter.go:164-177 | after a successful fetch, every catalog device has at least one `device_watts` sample |
| `CollectProps.ExactlyOneWattsPerCatalogDevice` | exporter.go:164-177 | with distinct ids in the catalog and in each realtime update, every catalog device has exactly one `device_watts` sample |
| `Scenarios.TwoDeviceScrape` | exporter.go:107-178 | the two-device scrape: D1 reported at 25.5 W, D2 backfilled with 0, volts on channels "0" and "1", active and online mapped to 1/0, up = 1 |
| `Scenarios.StreamFailureKeepsPartialData` | exporter.go:157-162 | a stream error after the realtime update keeps the samples already emitted and reports up = 0 |
| `Scenarios.DuplicateCatalogIdGetsTwoWatts` | exporter.go:164-177 | a catalog listing D1 twice, with a stream that reports nothing, gets two `device_watts` samples for D1 |
| `Scenarios.DuplicateReportGetsTwoWatts` | exporter.go:195-207 | a realtime update reporting D1 twice sends two `device_watts` samples for D1 |

## Left out

- `Exporter.ServeHTTP` and `NewExporter` (exporter.go:66-87, 270-280) are left out. They register collectors in a Prometheus registry and render it through `promhttp`, which are library calls. Because of this, the per-monitor `monitor` label and the process and Go runtime collectors are not modelled.
- Context timeout and cancellation (exporter.go:114-118) are not modelled. A deadline shows up only as `GetDevices` or `Stream` returning an error.
- OpenTelemetry spans and log lines (exporter.go:108-113, 130, 140-141, 159-160) are left out. They are observability side effects that do not affect what is emitted.
- The wall clock (exporter.go:119, 128-129) is not modelled; the elapsed seconds are an opaque input.
- The network behaviour of the Sense client's `GetDevices` and `Stream` is not modelled. Their answers are inputs.
- Exporter.Stream: returns the scripted error whether or not the callback stopped the stream. How the library turns `Stop` into its return value is not part of this model.
- Go's `float32`-to-`float64` conversions of watts, volts and hertz are not modelled; the values are taken as exact reals.
- cmd/sense-exporter/main.go, otel.go and jaeger.go are not part of this model. They hold flag parsing, client construction, the HTTP server and tracer setup.
- exporter_test.go is not part of this model. It targets a `NewCollector` constructor and a `collector.timeout` field, which `exporter.go` does not have. The timeout is held by `Exporter.timeout` (exporter.go:29). The `Client` interface it would mock appears only inside a comment (exporter.go:19-25).
- Concurrency between collectors is not modelled. Each collection owns its own channel here, so the model runs one collection at a time.
