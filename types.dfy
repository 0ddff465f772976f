/**
 * The aggregator's records of `src/types.ts`: one `Metric` per stream source, holding a
 * `MetricDetail` (unit, running average, timestamped records) per measured quantity.
 */
module Types {
  import opened Stats

  /** One recorded value and its `Date.now()` timestamp. */
  datatype MetricRecord = MetricRecord(timestamp: int, value: real)

  /** A measured quantity: its unit, the average over its records, and the records in order. */
  datatype MetricDetail = MetricDetail(unit: string, averageValue: real, records: seq<MetricRecord>)

  /** The history of one stream source (`video_url`, `cdn_provider` and seven details). */
  datatype Metric = Metric(
    videoUrl: string,
    cdnProvider: string,
    timeToFirstByte: MetricDetail,
    throughput: MetricDetail,
    latency: MetricDetail,
    errorRate: MetricDetail,
    averageBitrate: MetricDetail,
    stallRate: MetricDetail,
    upscalingTime: MetricDetail)

  /** The seven measured quantities of a metric, in declaration order: every field but the two identifying ones. */
  function Details(m: Metric): (ds: seq<MetricDetail>)
    ensures |ds| == 7
  {
    [m.timeToFirstByte, m.throughput, m.latency, m.errorRate, m.averageBitrate, m.stallRate, m.upscalingTime]
  }

  /** The values of the records, in order. */
  function Values(records: seq<MetricRecord>): (vs: seq<real>)
    ensures |vs| == |records|
    ensures forall i :: 0 <= i < |records| ==> vs[i] == records[i].value
  {
    seq(|records|, i requires 0 <= i < |records| => records[i].value)
  }

  /** The average of a detail is the mean of its record values, or 0 when it has none. */
  predicate Averaged(d: MetricDetail)
  {
    d.averageValue == if d.records == [] then 0.0 else Mean(Values(d.records))
  }

  /** The URLs of a list of metrics, in order. */
  function Urls(ms: seq<Metric>): (us: seq<string>)
    ensures |us| == |ms|
    ensures forall i :: 0 <= i < |ms| ==> us[i] == ms[i].videoUrl
  {
    seq(|ms|, i requires 0 <= i < |ms| => ms[i].videoUrl)
  }

  /** No two entries of the list share a URL. */
  predicate UniqueUrls(ms: seq<Metric>)
  {
    forall i, j :: 0 <= i < j < |ms| ==> ms[i].videoUrl != ms[j].videoUrl
  }

  /** The index of the first occurrence of `x` in `xs`, or -1 (`Array.prototype.findIndex`). */
  function FirstIndex<T(==)>(xs: seq<T>, x: T): (i: int)
    ensures -1 <= i < |xs|
    ensures 0 <= i ==> xs[i] == x && forall j :: 0 <= j < i ==> xs[j] != x
    ensures i == -1 <==> x !in xs
  {
    if xs == [] then -1
    else if xs[0] == x then 0
    else
      var k := FirstIndex(xs[1..], x);
      if k < 0 then -1 else k + 1
  }

  /** The index of the first entry recorded for `url`, or -1. */
  function IndexOfUrl(ms: seq<Metric>, url: string): (i: int)
    ensures -1 <= i < |ms|
    ensures 0 <= i ==> ms[i].videoUrl == url && forall j :: 0 <= j < i ==> ms[j].videoUrl != url
    ensures i == -1 <==> forall j :: 0 <= j < |ms| ==> ms[j].videoUrl != url
  {
    var i := FirstIndex(Urls(ms), url);
    assert i == -1 <==> url !in Urls(ms);
    i
  }
}
