/**
 * The pure list transformations of `src/Table.tsx`: the two reset handlers, the lookup of
 * the selected source and the number of table rows. The literal URL table is the input
 * `groups` of type `seq<VideoGroup>`.
 */
module Table {
  import opened Wrappers
  import opened Types

  /** One entry of the URL table: a stream and the CDN that serves it. */
  datatype Video = Video(videoUrl: string, cdnProvider: string)

  /** A named group of streams, as listed in the URL table. */
  datatype VideoGroup = VideoGroup(file: string, videos: seq<Video>)

  /** A detail with its records and average dropped and its unit kept. */
  function ResetDetail(d: MetricDetail): MetricDetail
  {
    d.(averageValue := 0.0, records := [])
  }

  /** The reset of one entry: every detail zeroed, the source's identity kept. */
  function ResetMetric(m: Metric): (r: Metric)
    ensures r.videoUrl == m.videoUrl && r.cdnProvider == m.cdnProvider
    ensures forall k :: 0 <= k < 7 ==>
      Details(r)[k] == MetricDetail(Details(m)[k].unit, 0.0, []) && Averaged(Details(r)[k])
  {
    m.(timeToFirstByte := ResetDetail(m.timeToFirstByte),
       throughput := ResetDetail(m.throughput),
       latency := ResetDetail(m.latency),
       errorRate := ResetDetail(m.errorRate),
       averageBitrate := ResetDetail(m.averageBitrate),
       stallRate := ResetDetail(m.stallRate),
       upscalingTime := ResetDetail(m.upscalingTime))
  }

  /**
   * "Reset Selected Metrics": the entries of the selected URL are reset, the others kept;
   * nothing happens when no URL (null or empty) is selected.
   */
  function ResetSelected(ms: seq<Metric>, selectedUrl: Option<string>): (r: seq<Metric>)
    ensures |r| == |ms| && Urls(r) == Urls(ms)
    ensures selectedUrl.None? || selectedUrl.value == "" ==> r == ms
    ensures forall i :: 0 <= i < |ms| ==>
      r[i] == if selectedUrl.Some? && selectedUrl.value != "" && ms[i].videoUrl == selectedUrl.value
              then ResetMetric(ms[i]) else ms[i]
  {
    if selectedUrl.None? || selectedUrl.value == "" then ms
    else seq(|ms|, i requires 0 <= i < |ms| =>
           if ms[i].videoUrl == selectedUrl.value then ResetMetric(ms[i]) else ms[i])
  }

  /** "Reset All Metrics": every entry reset, in place in the list. */
  function ResetAll(ms: seq<Metric>): (r: seq<Metric>)
    ensures |r| == |ms| && Urls(r) == Urls(ms)
    ensures forall i :: 0 <= i < |ms| ==> r[i] == ResetMetric(ms[i])
  {
    seq(|ms|, i requires 0 <= i < |ms| => ResetMetric(ms[i]))
  }

  /** Resetting all entries twice is resetting them once. */
  lemma ResetAllIdempotent(ms: seq<Metric>)
    ensures ResetAll(ResetAll(ms)) == ResetAll(ms)
  {
    var once := ResetAll(ms);
    forall i | 0 <= i < |ms|
      ensures ResetAll(once)[i] == once[i]
    {
      ResetMetricIdempotent(ms[i]);
    }
  }

  /** Resetting an entry that was already reset changes nothing. */
  lemma ResetMetricIdempotent(m: Metric)
    ensures ResetMetric(ResetMetric(m)) == ResetMetric(m)
  {
  }

  /** On each entry, "Reset All" does what "Reset Selected" does with that entry's URL selected. */
  lemma ResetAllResetsEachSelected(ms: seq<Metric>, i: int)
    requires 0 <= i < |ms| && ms[i].videoUrl != ""
    ensures ResetAll(ms)[i] == ResetSelected(ms, Some(ms[i].videoUrl))[i]
  {
  }

  /** `selectedMetric`: the first entry whose URL is the selected one, if any. */
  function SelectedMetric(ms: seq<Metric>, selectedUrl: Option<string>): (r: Option<Metric>)
    ensures r.Some? <==> selectedUrl.Some? && exists i :: 0 <= i < |ms| && ms[i].videoUrl == selectedUrl.value
    ensures r.Some? ==> exists i :: 0 <= i < |ms| && r.value == ms[i]
                          && r.value.videoUrl == selectedUrl.value
                          && forall j :: 0 <= j < i ==> ms[j].videoUrl != selectedUrl.value
  {
    if selectedUrl.None? then None
    else
      var i := IndexOfUrl(ms, selectedUrl.value);
      if i < 0 then None else Some(ms[i])
  }

  /** The largest number of records among the given details. */
  function MaxRecordCount(ds: seq<MetricDetail>): (n: nat)
    requires |ds| > 0
    ensures forall k :: 0 <= k < |ds| ==> |ds[k].records| <= n
    ensures exists k :: 0 <= k < |ds| && |ds[k].records| == n
  {
    if |ds| == 1 then |ds[0].records|
    else
      var rest := MaxRecordCount(ds[1..]);
      assert forall k :: 1 <= k < |ds| ==> ds[k] == ds[1..][k - 1];
      if |ds[0].records| >= rest then |ds[0].records| else rest
  }

  /**
   * `maxRecords`: the number of table rows, the longest record list among the seven
   * details of the selected entry. Without a selected entry `Math.max()` of nothing is
   * minus infinity; that case is `None`.
   */
  function MaxRecords(selected: Option<Metric>): (r: Option<nat>)
    ensures r.None? <==> selected.None?
    ensures r.Some? ==>
      && (forall k :: 0 <= k < 7 ==> |Details(selected.value)[k].records| <= r.value)
      && (exists k :: 0 <= k < 7 && |Details(selected.value)[k].records| == r.value)
  {
    match selected
    case None => None
    case Some(m) => Some(MaxRecordCount(Details(m)))
  }
}
