/**
 * The per-source aggregation of `src/VideoMetricsLayout.tsx`: appending a recorded value to
 * a detail, looking up a source's CDN provider and its `Metric`, and folding a finalized
 * collector snapshot into the list of metrics (`handleRecord`), with the component's state
 * as the `MetricsStore` class.
 */
module VideoMetricsLayout {
  import opened Wrappers
  import opened Stats
  import opened Types
  import opened Table
  import MeasurePlayer

  /** The units of a fresh metric's seven details, in declaration order. */
  const FreshUnits: seq<string> := ["ms", "mbps", "ms", "%", "kbps", "time", "second"]

  /** Provider reported for a URL missing from the URL table. */
  const UnknownProvider: string := "Unknown"

  /** `d2` is `d1` with one more record, carrying `value` stamped `now`, and the same unit. */
  predicate Recorded(d1: MetricDetail, d2: MetricDetail, value: real, now: int)
  {
    d2.unit == d1.unit && d2.records == d1.records + [MetricRecord(now, value)]
  }

  /** `appendMetricDetail`: one more timestamped record, and the average over all records. */
  function AppendMetricDetail(prev: MetricDetail, value: real, now: int): (r: MetricDetail)
    ensures Recorded(prev, r, value, now)
    ensures |r.records| == |prev.records| + 1 && r.records[..|prev.records|] == prev.records
    ensures r.records[|prev.records|].value == value
    ensures Averaged(r)
  {
    var records := prev.records + [MetricRecord(now, value)];
    assert records[..|prev.records|] == prev.records;
    prev.(records := records, averageValue := Sum(Values(records)) / |records| as real)
  }

  /**
   * On a detail whose average is its records' mean, appending gives the running mean:
   * the prev average weighted by the prev record count, plus the new value.
   */
  lemma AppendRunningMean(prev: MetricDetail, value: real, now: int)
    requires Averaged(prev)
    ensures AppendMetricDetail(prev, value, now).averageValue
            == RunningMean(prev.averageValue, |prev.records|, value)
  {
    var r := AppendMetricDetail(prev, value, now);
    var vs := Values(prev.records);
    assert Values(r.records) == vs + [value];
    assert r.averageValue == Mean(vs + [value]);
    if prev.records == [] {
      assert vs + [value] == [value];
      MeanSingleton(value);
    } else {
      assert prev.averageValue == Mean(vs);
      MeanAppend(vs, value, prev.averageValue, |prev.records|);
    }
  }

  /** The video at `(g, v)` of the URL table has the URL `url`. */
  predicate Listed(groups: seq<VideoGroup>, url: string, g: int, v: int)
  {
    0 <= g < |groups| && 0 <= v < |groups[g].videos| && groups[g].videos[v].videoUrl == url
  }

  /** `(g, v)` is the first listing of `url`, scanning groups in order and each group's videos in order. */
  ghost predicate FirstListed(groups: seq<VideoGroup>, url: string, g: int, v: int)
  {
    Listed(groups, url, g, v)
    && forall g', v' :: Listed(groups, url, g', v') ==> g < g' || (g == g' && v <= v')
  }

  /** The URLs of a group's videos, in order. */
  function VideoUrls(videos: seq<Video>): seq<string>
  {
    seq(|videos|, i requires 0 <= i < |videos| => videos[i].videoUrl)
  }

  /** `findCdnProvider`: the provider of the first listed video with this URL, else "Unknown". */
  function FindCdnProvider(groups: seq<VideoGroup>, url: string): (p: string)
    ensures p == UnknownProvider
            || exists g, v :: Listed(groups, url, g, v) && p == groups[g].videos[v].cdnProvider
  {
    if groups == [] then UnknownProvider
    else
      var k := FirstIndex(VideoUrls(groups[0].videos), url);
      if k >= 0 then groups[0].videos[k].cdnProvider
      else FindCdnProvider(groups[1..], url)
  }

  /** `FindCdnProvider` returns the first listing's provider, and "Unknown" when the URL is not listed. */
  lemma {:induction false} FindCdnProviderFirstListed(groups: seq<VideoGroup>, url: string)
    ensures (forall g, v :: !Listed(groups, url, g, v)) ==> FindCdnProvider(groups, url) == UnknownProvider
    ensures (exists g, v :: Listed(groups, url, g, v)) ==>
      exists g, v :: FirstListed(groups, url, g, v)
                     && FindCdnProvider(groups, url) == groups[g].videos[v].cdnProvider
  {
    if groups == [] {
      return;
    }
    var us := VideoUrls(groups[0].videos);
    assert |us| == |groups[0].videos|;
    assert forall i :: 0 <= i < |us| ==> us[i] == groups[0].videos[i].videoUrl;
    var k := FirstIndex(us, url);
    if k >= 0 {
      assert FirstListed(groups, url, 0, k);
    } else {
      var rest := groups[1..];
      FindCdnProviderFirstListed(rest, url);
      assert forall g, v :: Listed(groups, url, g, v) ==> 1 <= g && Listed(rest, url, g - 1, v);
      if exists g, v :: Listed(groups, url, g, v) {
        var g0, v0 :| Listed(groups, url, g0, v0);
        assert Listed(rest, url, g0 - 1, v0);
        var g, v :| FirstListed(rest, url, g, v)
                    && FindCdnProvider(rest, url) == rest[g].videos[v].cdnProvider;
        forall g', v' | Listed(groups, url, g', v')
          ensures g + 1 < g' || (g + 1 == g' && v <= v')
        {
          assert Listed(rest, url, g' - 1, v');
        }
        assert FirstListed(groups, url, g + 1, v);
      } else {
        forall g, v ensures !Listed(rest, url, g, v) {
          if Listed(rest, url, g, v) {
            assert Listed(groups, url, g + 1, v);
          }
        }
      }
    }
  }

  /** A metric for `url` with no records yet: zero averages and the fixed units. */
  function FreshMetric(url: string, provider: string): (m: Metric)
    ensures m.videoUrl == url && m.cdnProvider == provider
    ensures forall k :: 0 <= k < 7 ==> Details(m)[k] == MetricDetail(FreshUnits[k], 0.0, [])
  {
    Metric(url, provider,
           MetricDetail("ms", 0.0, []),
           MetricDetail("mbps", 0.0, []),
           MetricDetail("ms", 0.0, []),
           MetricDetail("%", 0.0, []),
           MetricDetail("kbps", 0.0, []),
           MetricDetail("time", 0.0, []),
           MetricDetail("second", 0.0, []))
  }

  /** `getOrCreateMetric`: the first entry for `url`, or a fresh metric for it. */
  function GetOrCreateMetric(ms: seq<Metric>, groups: seq<VideoGroup>, url: string): (m: Metric)
    ensures m.videoUrl == url
    ensures (exists i :: 0 <= i < |ms| && ms[i].videoUrl == url) ==>
      exists i :: 0 <= i < |ms| && m == ms[i] && forall j :: 0 <= j < i ==> ms[j].videoUrl != url
    ensures (forall i :: 0 <= i < |ms| ==> ms[i].videoUrl != url) ==>
      m.cdnProvider == FindCdnProvider(groups, url)
      && forall k :: 0 <= k < 7 ==> Details(m)[k] == MetricDetail(FreshUnits[k], 0.0, [])
  {
    var i := IndexOfUrl(ms, url);
    if i >= 0 then ms[i] else FreshMetric(url, FindCdnProvider(groups, url))
  }

  /**
   * The `updated` entry of `handleRecord`: the snapshot's seven figures appended to the
   * entry's details, its URL and provider kept.
   */
  function ApplySnapshot(prev: Metric, raw: MeasurePlayer.Metrics, now: int): (r: Metric)
    ensures r.videoUrl == prev.videoUrl && r.cdnProvider == prev.cdnProvider
    ensures Recorded(prev.timeToFirstByte, r.timeToFirstByte, raw.timeToFirstByte, now)
    ensures Recorded(prev.throughput, r.throughput, raw.throughput, now)
    ensures Recorded(prev.latency, r.latency, raw.latency, now)
    ensures Recorded(prev.errorRate, r.errorRate, raw.errorRate, now)
    ensures Recorded(prev.averageBitrate, r.averageBitrate, raw.averageBitrate, now)
    ensures Recorded(prev.stallRate, r.stallRate, raw.stallCount as real, now)
    ensures Recorded(prev.upscalingTime, r.upscalingTime, raw.upscalingTime, now)
    ensures forall k :: 0 <= k < 7 ==> Averaged(Details(r)[k])
  {
    prev.(timeToFirstByte := AppendMetricDetail(prev.timeToFirstByte, raw.timeToFirstByte, now),
         throughput := AppendMetricDetail(prev.throughput, raw.throughput, now),
         latency := AppendMetricDetail(prev.latency, raw.latency, now),
         errorRate := AppendMetricDetail(prev.errorRate, raw.errorRate, now),
         averageBitrate := AppendMetricDetail(prev.averageBitrate, raw.averageBitrate, now),
         stallRate := AppendMetricDetail(prev.stallRate, raw.stallCount as real, now),
         upscalingTime := AppendMetricDetail(prev.upscalingTime, raw.upscalingTime, now))
  }

  /**
   * The list update of `handleRecord`: the first entry of `url` replaced by its updated
   * version, or a new entry for `url` appended at the end.
   */
  function RecordSnapshot(ms: seq<Metric>, groups: seq<VideoGroup>, url: string,
                          raw: MeasurePlayer.Metrics, now: int): (r: seq<Metric>)
    ensures |r| == if IndexOfUrl(ms, url) >= 0 then |ms| else |ms| + 1
    ensures forall j :: 0 <= j < |ms| && ms[j].videoUrl != url ==> r[j] == ms[j]
  {
    var i := IndexOfUrl(ms, url);
    var updated := ApplySnapshot(GetOrCreateMetric(ms, groups, url), raw, now);
    if i >= 0 then ms[i := updated] else ms + [updated]
  }

  /** Recording keeps the list's URLs, and appends `url` when it was not among them. */
  lemma RecordSnapshotUrls(ms: seq<Metric>, groups: seq<VideoGroup>, url: string,
                           raw: MeasurePlayer.Metrics, now: int)
    ensures Urls(RecordSnapshot(ms, groups, url, raw, now))
            == if url in Urls(ms) then Urls(ms) else Urls(ms) + [url]
  {
    var r := RecordSnapshot(ms, groups, url, raw, now);
    var i := IndexOfUrl(ms, url);
    var updated := ApplySnapshot(GetOrCreateMetric(ms, groups, url), raw, now);
    assert updated.videoUrl == url;
    if i >= 0 {
      assert r == ms[i := updated];
      forall j | 0 <= j < |ms|
        ensures Urls(r)[j] == Urls(ms)[j]
      {
      }
      assert Urls(r) == Urls(ms);
      assert url in Urls(ms) by {
        assert Urls(ms)[i] == url;
      }
    } else {
      assert r == ms + [updated];
      var us := Urls(ms) + [url];
      forall j | 0 <= j < |r|
        ensures Urls(r)[j] == us[j]
      {
        if j < |ms| {
          assert r[j] == ms[j];
        }
      }
      assert Urls(r) == us;
      assert url !in Urls(ms) by {
        forall j | 0 <= j < |ms|
          ensures Urls(ms)[j] != url
        {
        }
      }
    }
  }

  /**
   * What recording does to the entries: with `url` listed, its first entry is updated in
   * place and every other entry kept; otherwise the list is kept and an updated fresh
   * metric for `url` follows it.
   */
  lemma RecordSnapshotEntries(ms: seq<Metric>, groups: seq<VideoGroup>, url: string,
                              raw: MeasurePlayer.Metrics, now: int)
    ensures var r := RecordSnapshot(ms, groups, url, raw, now);
      url in Urls(ms) ==>
        var i := IndexOfUrl(ms, url);
        |r| == |ms| && r[i] == ApplySnapshot(ms[i], raw, now)
        && forall j :: 0 <= j < |ms| && j != i ==> r[j] == ms[j]
    ensures var r := RecordSnapshot(ms, groups, url, raw, now);
      url !in Urls(ms) ==>
        |r| == |ms| + 1 && r[..|ms|] == ms
        && r[|ms|] == ApplySnapshot(FreshMetric(url, FindCdnProvider(groups, url)), raw, now)
  {
    var r := RecordSnapshot(ms, groups, url, raw, now);
    if url !in Urls(ms) {
      assert r[..|ms|] == ms;
    }
  }

  /** Recording a snapshot keeps the URLs of the list distinct. */
  lemma RecordSnapshotKeepsUrlsUnique(ms: seq<Metric>, groups: seq<VideoGroup>, url: string,
                                      raw: MeasurePlayer.Metrics, now: int)
    requires UniqueUrls(ms)
    ensures UniqueUrls(RecordSnapshot(ms, groups, url, raw, now))
  {
    var r := RecordSnapshot(ms, groups, url, raw, now);
    RecordSnapshotUrls(ms, groups, url, raw, now);
    forall i, j | 0 <= i < j < |r|
      ensures r[i].videoUrl != r[j].videoUrl
    {
      assert Urls(r)[i] == r[i].videoUrl && Urls(r)[j] == r[j].videoUrl;
      if j == |ms| {
        assert url !in Urls(ms);
        assert Urls(r)[i] == Urls(ms)[i];
      } else {
        assert Urls(r)[i] == Urls(ms)[i] && Urls(r)[j] == Urls(ms)[j];
      }
    }
  }

  /** Resetting keeps the URLs, so it keeps them distinct. */
  lemma ResetsKeepUrlsUnique(ms: seq<Metric>, selectedUrl: Option<string>)
    requires UniqueUrls(ms)
    ensures UniqueUrls(ResetSelected(ms, selectedUrl)) && UniqueUrls(ResetAll(ms))
  {
    var a, b := ResetSelected(ms, selectedUrl), ResetAll(ms);
    forall i, j | 0 <= i < j < |ms|
      ensures a[i].videoUrl != a[j].videoUrl && b[i].videoUrl != b[j].videoUrl
    {
      assert Urls(a)[i] == Urls(ms)[i] && Urls(a)[j] == Urls(ms)[j];
      assert Urls(b)[i] == Urls(ms)[i] && Urls(b)[j] == Urls(ms)[j];
    }
  }

  /**
   * The `VideoMetricsLayout` component's state: the metrics list, the selected URL and the
   * counter that remounts the player after each record.
   */
  class MetricsStore {
    var metrics: seq<Metric>
    var selectedUrl: string
    var playerCount: nat
    const groups: seq<VideoGroup>

    ghost predicate Valid()
      reads this`metrics
    {
      UniqueUrls(metrics)
    }

    constructor (groups: seq<VideoGroup>, selectedUrl: string)
      ensures Valid()
      ensures this.groups == groups && this.selectedUrl == selectedUrl
      ensures metrics == [] && playerCount == 0
    {
      this.groups := groups;
      this.selectedUrl := selectedUrl;
      metrics := [];
      playerCount := 0;
    }

    /** `handleRecord`: the snapshot folded into the list, and the player remounted. */
    method HandleRecord(raw: MeasurePlayer.Metrics, now: int)
      requires Valid()
      modifies this`metrics, this`playerCount
      ensures Valid()
      ensures metrics == RecordSnapshot(old(metrics), groups, old(selectedUrl), raw, now)
      ensures playerCount == old(playerCount) + 1
    {
      var updated := RecordSnapshot(metrics, groups, selectedUrl, raw, now);
      RecordSnapshotKeepsUrlsUnique(metrics, groups, selectedUrl, raw, now);
      metrics, playerCount := updated, playerCount + 1;
    }

    /** The select box's `setSelectedUrl`. */
    method SelectUrl(url: string)
      modifies this`selectedUrl
      ensures selectedUrl == url
    {
      selectedUrl := url;
    }

    /** The "Reset Selected Metrics" button, through `setMetrics`. */
    method ResetSelectedMetrics()
      requires Valid()
      modifies this`metrics
      ensures Valid()
      ensures metrics == ResetSelected(old(metrics), Some(selectedUrl))
    {
      ResetsKeepUrlsUnique(metrics, Some(selectedUrl));
      metrics := ResetSelected(metrics, Some(selectedUrl));
    }

    /** The "Reset All Metrics" button, through `setMetrics`. */
    method ResetAllMetrics()
      requires Valid()
      modifies this`metrics
      ensures Valid()
      ensures metrics == ResetAll(old(metrics))
    {
      ResetsKeepUrlsUnique(metrics, None);
      metrics := ResetAll(metrics);
    }
  }
}
