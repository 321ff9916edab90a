/**
 * The exporter's fixed metric schema: eight gauges, each with a fully
 * qualified name, a help text and its variable label names, and the samples
 * the collector emits against them.
 */
module Metrics {

  /** The eight gauges the exporter defines. */
  datatype Gauge =
    | Up | ScrapeTime
    | DeviceWatts | MonitorVolts | MonitorWatts | MonitorHz
    | DeviceActive | DeviceOnline

  datatype Desc = Desc(fqName: string, help: string, variableLabels: seq<string>)

  /** The label names shared by the three per-device gauges. */
  const DeviceLabelNames: seq<string> := ["device_id", "name", "type", "make", "model"]

  /** The descriptor of each gauge. The help texts are kept as the exporter writes them. */
  function DescOf(g: Gauge): (d: Desc)
    ensures |d.variableLabels| == match g
      case DeviceWatts | DeviceActive | DeviceOnline => 5
      case MonitorVolts => 1
      case _ => 0
  {
    match g
    case Up => Desc("sense_monitor_up", "Whether a Sense monitor is online and accessible to us", [])
    case ScrapeTime => Desc("sense_scrape_time_seconds", "Time spent scraping Sense", [])
    case DeviceWatts => Desc("sense_device_watts", "Current power usage of a device", DeviceLabelNames)
    case MonitorVolts => Desc("sense_monitor_volts", "Current voltage detected by the Sense monitor", ["channel"])
    case MonitorWatts => Desc("sense_monitor_watts", "Current voltage detected by the Sense monitor", [])
    case MonitorHz => Desc("sense_monitor_hz", "Current frequency detected by the Sense monitor", [])
    case DeviceActive => Desc("sense_device_active", "Whether a Sense device is active", DeviceLabelNames)
    case DeviceOnline => Desc("sense_device_online", "Whether a Sense device is online", DeviceLabelNames)
  }

  /** The order in which a collector advertises its gauges. */
  const DescribeOrder: seq<Gauge> :=
    [Up, ScrapeTime, DeviceWatts, MonitorVolts, MonitorWatts, MonitorHz, DeviceActive, DeviceOnline]

  /**
   * The descriptors a collector advertises, independent of any collection:
   * every gauge exactly once, in the advertised order, under pairwise
   * distinct names.
   */
  function Describe(): (r: seq<Desc>)
    ensures |r| == |DescribeOrder| == 8
    ensures forall i :: 0 <= i < |r| ==> r[i] == DescOf(DescribeOrder[i])
    ensures forall g: Gauge :: DescOf(g) in r
    ensures forall i, j :: 0 <= i < j < |r| ==> r[i].fqName != r[j].fqName
  {
    var order := DescribeOrder;
    assert order[0] == Up && order[1] == ScrapeTime && order[2] == DeviceWatts && order[3] == MonitorVolts;
    assert order[4] == MonitorWatts && order[5] == MonitorHz && order[6] == DeviceActive && order[7] == DeviceOnline;
    [DescOf(Up), DescOf(ScrapeTime), DescOf(DeviceWatts), DescOf(MonitorVolts),
     DescOf(MonitorWatts), DescOf(MonitorHz), DescOf(DeviceActive), DescOf(DeviceOnline)]
  }

  /** One constant gauge sample: which gauge, its label values, its value. */
  datatype Sample = Sample(gauge: Gauge, labelValues: seq<string>, value: real)

  /**
   * A sample whose label values match its descriptor's label names in
   * number; building a constant metric from any other sample panics.
   */
  predicate Consistent(s: Sample)
  {
    |s.labelValues| == |DescOf(s.gauge).variableLabels|
  }

  /** A device_watts sample for the device with the given id. */
  predicate IsWattsFor(s: Sample, id: string)
  {
    s.gauge == DeviceWatts && |s.labelValues| > 0 && s.labelValues[0] == id
  }

  /** Number of samples of gauge `g` in `s`. */
  function CountGauge(s: seq<Sample>, g: Gauge): nat
  {
    if s == [] then 0
    else CountGauge(s[..|s| - 1], g) + (if s[|s| - 1].gauge == g then 1 else 0)
  }

  /** Number of device_watts samples for device `id` in `s`. */
  function CountWattsFor(s: seq<Sample>, id: string): nat
  {
    if s == [] then 0
    else CountWattsFor(s[..|s| - 1], id) + (if IsWattsFor(s[|s| - 1], id) then 1 else 0)
  }

  lemma {:induction false} CountGaugeAppend(a: seq<Sample>, b: seq<Sample>, g: Gauge)
    ensures CountGauge(a + b, g) == CountGauge(a, g) + CountGauge(b, g)
    decreases |b|
  {
    if b != [] {
      assert (a + b)[..|a + b| - 1] == a + b[..|b| - 1];
      CountGaugeAppend(a, b[..|b| - 1], g);
    } else {
      assert a + b == a;
    }
  }

  lemma {:induction false} CountWattsForAppend(a: seq<Sample>, b: seq<Sample>, id: string)
    ensures CountWattsFor(a + b, id) == CountWattsFor(a, id) + CountWattsFor(b, id)
    decreases |b|
  {
    if b != [] {
      assert (a + b)[..|a + b| - 1] == a + b[..|b| - 1];
      CountWattsForAppend(a, b[..|b| - 1], id);
    } else {
      assert a + b == a;
    }
  }

  /** A sequence none of whose samples has gauge `g` counts zero of them. */
  lemma {:induction false} CountGaugeAbsent(s: seq<Sample>, g: Gauge)
    requires forall k :: 0 <= k < |s| ==> s[k].gauge != g
    ensures CountGauge(s, g) == 0
    decreases |s|
  {
    if s != [] {
      CountGaugeAbsent(s[..|s| - 1], g);
    }
  }

  /** A sequence without device_watts samples for `id` counts zero of them. */
  lemma {:induction false} CountWattsForAbsent(s: seq<Sample>, id: string)
    requires forall k :: 0 <= k < |s| ==> !IsWattsFor(s[k], id)
    ensures CountWattsFor(s, id) == 0
    decreases |s|
  {
    if s != [] {
      CountWattsForAbsent(s[..|s| - 1], id);
    }
  }

  /** The decimal digit character of `d`. */
  function DigitChar(d: nat): (c: char)
    requires d < 10
    ensures '0' <= c <= '9'
    ensures c as int - '0' as int == d
  {
    ('0' as int + d) as char
  }

  /**
   * strconv.Itoa on a non-negative int: the decimal numeral, digits only,
   * without a leading zero except for zero itself.
   */
  function Itoa(n: nat): (s: string)
    ensures |s| >= 1
    ensures forall i :: 0 <= i < |s| ==> '0' <= s[i] <= '9'
    ensures s[0] == '0' ==> n == 0 && s == "0"
    decreases n
  {
    if n < 10 then [DigitChar(n)] else Itoa(n / 10) + [DigitChar(n % 10)]
  }

  /** The number a string of decimal digits denotes, most significant digit first. */
  function DecimalValue(s: string): nat
    requires forall i :: 0 <= i < |s| ==> '0' <= s[i] <= '9'
  {
    if s == [] then 0
    else 10 * DecimalValue(s[..|s| - 1]) + (s[|s| - 1] as int - '0' as int)
  }

  /** The numeral Itoa writes reads back as the number it was given. */
  lemma {:induction false} ItoaValue(n: nat)
    ensures DecimalValue(Itoa(n)) == n
    decreases n
  {
    var s := Itoa(n);
    if n < 10 {
      assert s[..0] == [];
    } else {
      assert s[..|s| - 1] == Itoa(n / 10);
      ItoaValue(n / 10);
    }
  }

  /** Distinct channel numbers get distinct numerals. */
  lemma {:induction false} ItoaInjective(a: nat, b: nat)
    requires Itoa(a) == Itoa(b)
    ensures a == b
    decreases a
  {
    if a < 10 || b < 10 {
      assert Itoa(a)[0] == DigitChar(a) || Itoa(b)[0] == DigitChar(b);
    } else {
      var sa, sb := Itoa(a), Itoa(b);
      assert sa[..|sa| - 1] == Itoa(a / 10);
      assert sb[..|sb| - 1] == Itoa(b / 10);
      ItoaInjective(a / 10, b / 10);
      assert sa[|sa| - 1] == DigitChar(a % 10) && sb[|sb| - 1] == DigitChar(b % 10);
    }
  }
}
