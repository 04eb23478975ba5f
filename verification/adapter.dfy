/**
  The metric adapter: the descriptors the collector declares, and the
  samples one scrape emits from what `cachedOrCollect` returned.
 */
module MetricAdapter {
  import opened Optional
  import opened Measurements
  import opened RefreshCache

  datatype Metric =
    | Up
    | ScrapeDuration
    | LatencySeconds
    | JitterSeconds
    | DownloadBytesPerSecond
    | UploadBytesPerSecond
    | DownloadedBytes
    | UploadedBytes
    | PacketLossPct

  /** The seven metrics that carry a reading of the measurement. */
  predicate IsReading(m: Metric) {
    !m.Up? && !m.ScrapeDuration?
  }

  /** One emitted sample: which metric, its value, and its label values. */
  datatype Sample = Sample(metric: Metric, value: real, labels: seq<string>)

  /** A descriptor: the metric and the label names it declares. */
  datatype Desc = Desc(metric: Metric, labelNames: seq<string>)

  /** The label names of the reading descriptors, chosen once at construction. */
  function LabelNames(showServerLabels: bool): (names: seq<string>)
    ensures showServerLabels ==> names == ["server_name", "server_location", "server_country", "server_host"]
    ensures !showServerLabels ==> names == []
  {
    if showServerLabels then ["server_name", "server_location", "server_country", "server_host"]
    else []
  }

  /** The descriptor of one metric: `up` and the duration never carry labels. */
  function DescOf(showServerLabels: bool, m: Metric): Desc {
    Desc(m, if IsReading(m) then LabelNames(showServerLabels) else [])
  }

  /** Every metric the collector knows, in declaration order. */
  const AllMetrics: seq<Metric> :=
    [Up, ScrapeDuration, LatencySeconds, JitterSeconds, DownloadBytesPerSecond,
     UploadBytesPerSecond, DownloadedBytes, UploadedBytes, PacketLossPct]

  /**
    The descriptors the collector declares, in declaration order: one per
    metric, each with the label names `DescOf` gives it.
   */
  function Descriptors(showServerLabels: bool): (ds: seq<Desc>)
    ensures |ds| == 9
    ensures forall i :: 0 <= i < |ds| ==> ds[i] == DescOf(showServerLabels, AllMetrics[i])
    ensures forall m: Metric :: DescOf(showServerLabels, m) in ds
  {
    var ds := seq(9, i requires 0 <= i < 9 => DescOf(showServerLabels, AllMetrics[i]));
    assert forall m: Metric :: DescOf(showServerLabels, m) == ds[IndexOf(m)];
    ds
  }

  /** Where a metric sits in `AllMetrics`. */
  function IndexOf(m: Metric): (i: nat)
    ensures i < |AllMetrics| && AllMetrics[i] == m
  {
    match m
    case Up => 0
    case ScrapeDuration => 1
    case LatencySeconds => 2
    case JitterSeconds => 3
    case DownloadBytesPerSecond => 4
    case UploadBytesPerSecond => 5
    case DownloadedBytes => 6
    case UploadedBytes => 7
    case PacketLossPct => 8
  }

  /**
    Reference mapping from a reading metric to the measurement field it
    reports: latency and jitter converted from milliseconds to seconds, the
    rest as stored.
   */
  function Reading(m: Metric, r: Measurement): real
    requires IsReading(m)
  {
    match m
    case LatencySeconds => r.latencyMs / 1000.0
    case JitterSeconds => r.jitterMs / 1000.0
    case DownloadBytesPerSecond => r.downloadBandwidth
    case UploadBytesPerSecond => r.uploadBandwidth
    case DownloadedBytes => r.downloadBytes
    case UploadedBytes => r.uploadBytes
    case PacketLossPct => r.packetLoss
  }

  /** The server-identity label values taken from a result. */
  function ServerLabels(r: Measurement): seq<string> {
    [r.server.name, r.server.location, r.server.country, r.server.host]
  }

  /**
    Reference lookup from a declared label name to the server field it
    names; a name the collector does not declare names no field.
   */
  function ServerField(labelName: string, server: Server): Option<string> {
    if labelName == "server_name" then Some(server.name)
    else if labelName == "server_location" then Some(server.location)
    else if labelName == "server_country" then Some(server.country)
    else if labelName == "server_host" then Some(server.host)
    else None
  }

  /**
    Names and values line up: the k-th declared label name names the server
    field whose value is the k-th label value of every reading sample.
   */
  lemma LabelNamesPairWithValues(r: Measurement)
    ensures |LabelNames(true)| == |ServerLabels(r)| == 4
    ensures forall k :: 0 <= k < 4 ==> ServerField(LabelNames(true)[k], r.server) == Some(ServerLabels(r)[k])
  {
  }

  /**
    The seven reading samples, in emission order: each reading metric once,
    each value as the reference mapping gives it, all with the same labels.
   */
  function ReadingSamples(r: Measurement, labels: seq<string>): (ss: seq<Sample>)
    ensures |ss| == 7
    ensures forall i :: 0 <= i < 7 ==>
      IsReading(ss[i].metric) && ss[i].value == Reading(ss[i].metric, r) && ss[i].labels == labels
    ensures forall i, j :: 0 <= i < j < 7 ==> ss[i].metric != ss[j].metric
  {
    [ Sample(DownloadBytesPerSecond, r.downloadBandwidth, labels),
      Sample(UploadBytesPerSecond, r.uploadBandwidth, labels),
      Sample(LatencySeconds, r.latencyMs / 1000.0, labels),
      Sample(JitterSeconds, r.jitterMs / 1000.0, labels),
      Sample(UploadedBytes, r.uploadBytes, labels),
      Sample(DownloadedBytes, r.downloadBytes, labels),
      Sample(PacketLossPct, r.packetLoss, labels) ]
  }

  /**
    The samples of one scrape given what the lookup returned: the seven
    readings from the returned result (the zero-valued one on error), then
    the deferred scrape duration and `up`, which is 1 exactly when the lookup
    reported no error. `elapsed` stands for the measured wall-clock duration.
   */
  function Emit(showServerLabels: bool, lookup: Lookup, elapsed: real): (samples: seq<Sample>)
    ensures |samples| == 9
    ensures forall i :: 0 <= i < 7 ==>
      && IsReading(samples[i].metric)
      && samples[i].value == Reading(samples[i].metric, lookup.result)
      && samples[i].labels == (if showServerLabels then ServerLabels(lookup.result) else [])
    ensures forall i, j :: 0 <= i < j < 7 ==> samples[i].metric != samples[j].metric
    ensures samples[7] == Sample(ScrapeDuration, elapsed, [])
    ensures samples[8].metric == Up && samples[8].labels == []
    ensures samples[8].value == 1.0 <==> lookup.err.None?
    ensures samples[8].value == 0.0 <==> lookup.err.Some?
  {
    var success := if lookup.err.None? then 1.0 else 0.0;
    var labels := if showServerLabels then ServerLabels(lookup.result) else [];
    var readings := ReadingSamples(lookup.result, labels);
    var samples := readings + [Sample(ScrapeDuration, elapsed, []), Sample(Up, success, [])];
    assert samples[..7] == readings;
    samples
  }

  /** One scrape's outcome: the state afterwards and the samples emitted. */
  datatype Scrape = Scrape(state: State, samples: seq<Sample>)

  /**
    `Collect`, holding the lock throughout: look the result up (maybe
    measuring synchronously) and emit the samples for what came back.
   */
  function Collect(cfg: Config, s: State, now: int, run: Outcome, elapsed: real): (r: Scrape)
    ensures |r.samples| == 9
    ensures r.samples[8].metric == Up
    ensures r.samples[8].value == 1.0 <==> s.cached.Some? || run.Ok?
    ensures r.samples[8].value == 0.0 <==> s.cached.None? && run.Err?
    ensures s.cached.Some? ==> r.state.cached == s.cached
    ensures s.cached.None? && run.Ok? ==> r.state.cached == Some(run.result)
    ensures s.cached.None? && run.Err? ==> r.state == s
  {
    var step := CachedOrCollect(cfg, s, now, run);
    Scrape(step.state, Emit(cfg.showServerLabels, step.lookup, elapsed))
  }

  /**
    Every scrape ends with the duration sample and then `up`, and `up`
    appears nowhere else, so each scrape reports its lookup exactly once.
   */
  lemma UpReportsLookup(cfg: Config, s: State, now: int, run: Outcome, elapsed: real)
    ensures var r := Collect(cfg, s, now, run, elapsed);
      && r.samples[7].metric == ScrapeDuration
      && (forall i :: 0 <= i < |r.samples| ==> (r.samples[i].metric.Up? <==> i == 8))
  {
  }

  /** Each metric appears at most once per scrape, so no two samples collide. */
  lemma MetricsDistinct(showServerLabels: bool, lookup: Lookup, elapsed: real)
    ensures var samples := Emit(showServerLabels, lookup, elapsed);
      forall i, j :: 0 <= i < j < |samples| ==> samples[i].metric != samples[j].metric
  {
  }

  /**
    Labels: with the switch on, every reading sample carries the same four
    values, the returned result's server name, location, country and host;
    with it off, no sample carries labels.
   */
  lemma LabelsUniform(showServerLabels: bool, lookup: Lookup, elapsed: real)
    ensures var samples := Emit(showServerLabels, lookup, elapsed);
      && (showServerLabels ==> forall i :: 0 <= i < |samples| && IsReading(samples[i].metric) ==>
            samples[i].labels == ServerLabels(lookup.result))
      && (!showServerLabels ==> forall i :: 0 <= i < |samples| ==> samples[i].labels == [])
  {
  }

  /**
    Every sample matches its descriptor: as many label values as the
    descriptor declares label names, so building a constant metric from it
    cannot fail on a label-count mismatch.
   */
  lemma SamplesMatchDescriptors(showServerLabels: bool, lookup: Lookup, elapsed: real)
    ensures var samples := Emit(showServerLabels, lookup, elapsed);
      var ds := Descriptors(showServerLabels);
      forall i :: 0 <= i < |samples| ==>
        exists k :: 0 <= k < |ds| && ds[k].metric == samples[i].metric
                 && |ds[k].labelNames| == |samples[i].labels|
  {
    var samples := Emit(showServerLabels, lookup, elapsed);
    var ds := Descriptors(showServerLabels);
    forall i | 0 <= i < |samples|
      ensures exists k :: 0 <= k < |ds| && ds[k].metric == samples[i].metric
                       && |ds[k].labelNames| == |samples[i].labels|
    {
      var k := IndexOf(samples[i].metric);
      assert ds[k] == DescOf(showServerLabels, samples[i].metric);
    }
  }

  /**
    A failed lookup still emits all seven readings, taken from the
    zero-valued result: every value 0, with labels on four empty label
    values; `up` is 0.
   */
  lemma FailedLookupEmitsZeros(showServerLabels: bool, e: RunError, elapsed: real)
    ensures var samples := Emit(showServerLabels, Lookup(Zero, Some(e)), elapsed);
      && |samples| == 9
      && (forall i :: 0 <= i < 7 ==> IsReading(samples[i].metric) && samples[i].value == 0.0)
      && (showServerLabels ==> forall i :: 0 <= i < 7 ==> samples[i].labels == ["", "", "", ""])
      && samples[8] == Sample(Up, 0.0, [])
  {
  }

  /**
    A scrape against an empty slot whose run fails leaves the state as it
    was and emits the zero-valued samples with `up` 0.
   */
  lemma ColdFailedScrape(cfg: Config, s: State, now: int, run: Outcome, elapsed: real)
    requires s.cached.None? && run.Err?
    ensures Collect(cfg, s, now, run, elapsed)
         == Scrape(s, Emit(cfg.showServerLabels, Lookup(Zero, Some(run.error)), elapsed))
  {
  }
}
