# Video stream measurement: a Dafny model

This project models the core of a small web application that plays HLS streams with video.js and measures each streaming session. It covers two parts.

- **The per-session collector** (`src/MeasurePlayer.tsx`). It holds a set of mutable cells:
  - the playing flag;
  - the upscaling window and its accumulated time;
  - the rebuffer window and its latency samples;
  - the request and error counters;
  - the bitrate samples;
  - the one-shot throughput measurement, with its timer;
  - the widest announced rendition;
  - the live `Metrics` snapshot.

  Each video.js callback updates those cells. The model is the class `MeasurePlayer.Collector`, with one method per callback: `Play`, `Pause`, `Ended`, `AddQualityLevel`, `Change`, `Waiting`, `Playing`, `RequestIssued`/`RequestCompleted` for the wrapped `vhs.xhr`, `TimerFires`, `RecordMetrics` and `TtfbSettled`. Its invariant `Valid()` ties the snapshot to the cells, and every method preserves it:
  - the upscaling time is the accumulated total in seconds;
  - the latency and the average bitrate are the means of their samples;
  - failures never exceed completed requests, which never exceed issued ones;
  - the throughput is computed at most once;
  - the widest rendition is the maximum of the announced widths.

  `Scenarios` drives the class through whole sessions and states the resulting figures.
- **The per-source aggregation** (`src/VideoMetricsLayout.tsx`, and the reset handlers, the selected-entry lookup and the row count of `src/Table.tsx`). A finished session's snapshot is folded into a list of `Metric` records, one per stream URL, each holding seven timestamped series with their running averages. The model is pure functions with lemmas in the modules `VideoMetricsLayout`, `Table` and `Types`. The component state they act on is the class `VideoMetricsLayout.MetricsStore`.

`performance.now()` and `Date.now()` become `now` parameters. A ghost `clock` on the collector makes the readings non-decreasing. The selected quality level is a parameter `selected: Option<QualityLevel>`, and `None` stands for an index that selects nothing. The element width is `elementWidth: Option<int>`. The transferred byte count is `bytes`. The literal URL table of `src/Table.tsx` is an input `groups: seq<VideoGroup>`. Times, rates and means are Dafny `real`s.

Where the system's documented behaviour and the code differ, the model follows the code:
- throughput is reported in Mbps;
- the throughput divides the cumulative byte counter `mediaBytesTransferred`, including bytes loaded before `play`, by the seconds since `play`; no byte count is taken at the start;
- the error rate is recomputed only when a request fails;
- `requestCount` rises when a request is issued, not when it completes;
- a second `waiting` overwrites an open rebuffer window;
- reopening the upscaling window sets `calculatingUpscaling` again;
- `change` does not require a known rendition width, unlike `play`;
- a throughput start time of 0 counts as absent.

## Model

| member | source | states |
|---|---|---|
| MeasurePlayer.TargetWidth | src/MeasurePlayer.tsx:156-164 | the target never exceeds the widest rendition; without an element it is that width; with one it is the smaller of the two widths |
| MeasurePlayer.NeedsUpscaling | src/MeasurePlayer.tsx:135-139 | holds iff the current width is below 90% of the widest rendition and, when there is an element, below 90% of the element width |
| MeasurePlayer.ThroughputMbps | src/MeasurePlayer.tsx:95-99 | the rate is non-negative and zero iff the byte counter is 0; rate × elapsed seconds × 10^6 equals the counter's total in bits |
| MeasurePlayer.MaxWidthIsMax | src/MeasurePlayer.tsx:238-243 | the running maximum of the announced widths is at least 0, at least every announced width, and is either 0 or one of them |
| MeasurePlayer.ErrorRate | src/MeasurePlayer.tsx:193-199 | rate × requests = 100 × failures; the rate is a percentage in [0, 100] when failures do not exceed requests; it is 0 iff there was no failure |
| MeasurePlayer.Collector.constructor | src/MeasurePlayer.tsx:34-67 | every cell starts empty, zero, false or absent; the snapshot starts as the initial snapshot, with only the time-to-first-byte being measured |
| MeasurePlayer.Collector.ThroughputArmed | src/MeasurePlayer.tsx:92 | the throughput guard: a start time that is set and not 0, and no throughput measured yet (its effect is stated by CalculateThroughput, Pause, Ended and RecordMetrics) |
| MeasurePlayer.Collector.CalculateThroughput | src/MeasurePlayer.tsx:90-113 | when the guard rejects (no start time, start time 0, already measured) nothing changes; otherwise the result is marked measured, the throughput is set by the Mbps formula, measuring stops and the timer is cleared; at most one measurement ever happens |
| MeasurePlayer.Collector.StartUpscaling | src/MeasurePlayer.tsx:115-120 | on an open window it changes nothing; on a closed one it opens the window now and sets the measuring flag |
| MeasurePlayer.Collector.StopUpscaling | src/MeasurePlayer.tsx:122-133 | on a closed window it changes nothing; on an open one it adds the window's length to the total, closes it, shows the total in seconds and clears the flag; the total never decreases |
| MeasurePlayer.Collector.EarlyStopped | src/MeasurePlayer.tsx:122-147 | the outcome of an early stop, stated once for HandleEarlyStop, Pause, Ended and RecordMetrics: playback stopped, the window closed with its open time added to the total shown in seconds, the throughput measured exactly when its guard passed and every throughput cell kept otherwise, the other figures unchanged |
| MeasurePlayer.Collector.HandleEarlyStop | src/MeasurePlayer.tsx:141-147 | computes the throughput only when the timer is pending; closes the upscaling window, adding its length to a total that never decreases; stops playing; leaves every other figure of the snapshot unchanged |
| MeasurePlayer.Collector.Play | src/MeasurePlayer.tsx:207-230 | starts playing; opens the upscaling window iff a level is selected, a rendition width is known and the level needs upscaling; arms the timer and records the start time iff no measurement was made or is pending, and leaves them unchanged otherwise |
| MeasurePlayer.Collector.UpscaleOnPlay | src/MeasurePlayer.tsx:210-218 | the window opens now iff it was closed, a level is selected, a rendition width is known and the level needs upscaling; otherwise it is left as it was |
| MeasurePlayer.Collector.ArmThroughputTimer | src/MeasurePlayer.tsx:220-229 | after a measurement, or with the timer pending, nothing changes; otherwise the start time is now and the timer is pending; afterwards the timer is pending iff nothing was measured |
| MeasurePlayer.Collector.Pause | src/MeasurePlayer.tsx:232 | an early stop: the window closes, the total grows by its open time, playback stops; if the guard passes, the throughput becomes the byte counter's total, in megabits, over the seconds since the start, and the one-shot flag is set; otherwise the throughput, its flag, its measuring mark and the pending timer are all kept; the other figures are unchanged |
| MeasurePlayer.Collector.Ended | src/MeasurePlayer.tsx:233-236 | the same early stop (throughput computed iff the guard passes, every throughput cell kept otherwise), then the snapshot is handed on iff auto-recording is on and a receiver is set |
| MeasurePlayer.Collector.RecordMetrics | src/MeasurePlayer.tsx:149-154 | the same early stop: the upscaling total grows by the open window's time; if the guard passes, the throughput becomes the byte counter's total, in megabits, over the seconds since the start, the one-shot flag is set and no timer is pending; otherwise the throughput and all its cells are kept; then the snapshot is handed on iff a receiver is set |
| MeasurePlayer.Collector.TimerFires | src/MeasurePlayer.tsx:226-228 | the timer firing ten seconds after arming runs the throughput computation: once, with the Mbps formula, clearing the timer |
| MeasurePlayer.Collector.AddQualityLevel | src/MeasurePlayer.tsx:238-243 | records the announced width; the widest width becomes the new width iff the new width is wider |
| MeasurePlayer.Collector.OriginalWidthIsWidest | src/MeasurePlayer.tsx:238-243 | in every valid state the widest width is at least every announced width, is 0 or one of them, and is never negative |
| MeasurePlayer.Collector.Change | src/MeasurePlayer.tsx:245-268 | with no selected level nothing changes; otherwise the bitrate is sampled in every state and the average is the samples' mean in kbps; while playing, the window is open afterwards iff the level needs upscaling (closing adds its open time); while paused the window is untouched; other figures are unchanged |
| MeasurePlayer.Collector.SampleBitrate | src/MeasurePlayer.tsx:250-259 | the sample list grows by exactly the new bitrate and the average bitrate is their mean divided by 1000 |
| MeasurePlayer.Collector.Waiting | src/MeasurePlayer.tsx:271-274 | the stall count rises by exactly one, nothing else in the snapshot changes, and the rebuffer window starts now, replacing an open one |
| MeasurePlayer.Collector.Playing | src/MeasurePlayer.tsx:276-287 | with no open rebuffer window nothing changes; otherwise the window's length is appended to the samples, the latency becomes the mean of all samples and the window closes; the latency stays between 0 and the time elapsed |
| MeasurePlayer.Collector.RequestIssued | src/MeasurePlayer.tsx:188-189 | the request counter rises by one when the request is issued |
| MeasurePlayer.RequestFailed | src/MeasurePlayer.tsx:191 | a completion counts as a failure when the transport passed an error or the response status is 400 or more (its effect is stated by RequestCompleted) |
| MeasurePlayer.Collector.RequestCompleted | src/MeasurePlayer.tsx:190-203 | the original callback receives the same error and response; a failure (an error, or a status of 400 or more) adds one to the error counter and sets the rate to 100 × errors / requests; a success changes no figure; the error counter never exceeds the request counter |
| MeasurePlayer.Collector.TtfbSettled | src/MeasurePlayer.tsx:80-87 | the time-to-first-byte fetch settles: the elapsed time is stored on success, kept on failure; either way it is no longer being measured and nothing else changes |
| Stats.SumAppend | src/MeasurePlayer.tsx:279-282 | summing with one more sample adds exactly that sample |
| Stats.SumBounds | src/MeasurePlayer.tsx:279-282 | n samples within [lo, hi] sum to between n·lo and n·hi |
| Stats.MeanBounds | src/MeasurePlayer.tsx:279-282 | the mean of samples within [lo, hi] lies within [lo, hi] |
| Stats.MeanAppend | src/VideoMetricsLayout.tsx:13-14 | the mean after one more sample is the old mean weighted by the old count, plus the sample, over the new count |
| Stats.MeanSingleton | src/VideoMetricsLayout.tsx:13-14 | the mean of one sample is that sample |
| Scenarios.ErrorRateScenario | src/MeasurePlayer.tsx:188-204 | ten requests, eight answered with status 200 and two with 500, give an error rate of 20% |
| Scenarios.UpscalingScenario | src/MeasurePlayer.tsx:207-268 | with renditions 320, 640 and 1280 wide, playing at 1280 opens no window; a switch to 320 opens one; a pause three seconds later leaves 3 seconds of upscaling |
| Scenarios.UpscalingToggleScenario | src/MeasurePlayer.tsx:245-268 | switching from 85% to 95% of the target closes the window; switching back reopens it; both stretches add up to 3 seconds |
| Scenarios.RebufferScenario | src/MeasurePlayer.tsx:271-287 | stalls of 200 ms and 400 ms count two stalls with a mean latency of 300 ms |
| Scenarios.ThroughputOnceScenario | src/MeasurePlayer.tsx:90-113 | a byte counter at 12.5 MB ten seconds after the start gives 10 Mbps; a later pause with a higher counter does not recompute it, and no timer is left pending |
| Types.Details | src/Table.tsx:125-126 | a metric has exactly seven measured series: every field except the URL and the provider |
| Types.FirstIndex | src/VideoMetricsLayout.tsx:58 | the index of the first occurrence, or -1 iff there is none |
| Types.IndexOfUrl | src/VideoMetricsLayout.tsx:58 | the index of the first entry with the URL, or -1 iff no entry has it |
| Table.ResetMetric | src/Table.tsx:159-168 | URL and provider kept; each of the seven series gets average 0 and no records, its unit kept |
| Table.ResetSelected | src/Table.tsx:157-168 | nothing changes when no URL, or an empty one, is selected; otherwise exactly the entries with the selected URL are reset; the length and the URLs are kept |
| Table.ResetAll | src/Table.tsx:173-182 | every entry is reset in place; the length and the URLs are kept |
| Table.ResetAllIdempotent | src/Table.tsx:173-182 | resetting all twice equals resetting all once |
| Table.ResetMetricIdempotent | src/Table.tsx:173-182 | resetting a reset entry changes nothing |
| Table.ResetAllResetsEachSelected | src/Table.tsx:157-182 | on every entry with a non-empty URL, "Reset All" agrees with "Reset Selected" for that entry's URL |
| Table.SelectedMetric | src/Table.tsx:124 | the selected entry exists iff some entry has the selected URL; then it is the first such entry |
| Table.MaxRecordCount | src/Table.tsx:127-129 | the largest record count: at least every series' count, and attained by one of them |
| Table.MaxRecords | src/Table.tsx:125-129 | the row count is absent iff no entry is selected; otherwise it is the largest record count over the seven series |
| VideoMetricsLayout.AppendMetricDetail | src/VideoMetricsLayout.tsx:8-16 | exactly one more record; the old records are a prefix; the new last record has the given value and timestamp; the unit is kept; the average is the mean of all values |
| VideoMetricsLayout.AppendRunningMean | src/VideoMetricsLayout.tsx:13-14 | on a series whose average is the mean of its records, the new average is the running mean (old average × old count + value) / (old count + 1) |
| VideoMetricsLayout.FindCdnProvider | src/VideoMetricsLayout.tsx:30-36 | the provider is "Unknown" or the provider of some listing of the URL |
| VideoMetricsLayout.FindCdnProviderFirstListed | src/VideoMetricsLayout.tsx:30-36 | the provider of the first listing of the URL, scanning groups and then each group's videos in order; "Unknown" when it is not listed |
| VideoMetricsLayout.FreshMetric | src/VideoMetricsLayout.tsx:42-52 | the URL and provider given; the seven series are empty with average 0 and units ms, mbps, ms, %, kbps, time, second |
| VideoMetricsLayout.GetOrCreateMetric | src/VideoMetricsLayout.tsx:39-53 | the first entry with the URL when there is one; otherwise a fresh entry for the URL, with the table's provider, empty series and the fixed units |
| VideoMetricsLayout.ApplySnapshot | src/VideoMetricsLayout.tsx:60-69 | URL and provider kept; each series gains one record: time-to-first-byte, throughput and latency from their namesakes, the error rate from errorRate, stalls from stallCount, bitrate from averageBitrate, upscaling from upscalingTime; every average is its records' mean |
| VideoMetricsLayout.RecordSnapshot | src/VideoMetricsLayout.tsx:57-75 | recording keeps the list's length when the URL is already listed and adds one entry otherwise; entries for other URLs are untouched |
| VideoMetricsLayout.RecordSnapshotUrls | src/VideoMetricsLayout.tsx:56-75 | the list's URLs are kept when the URL was listed; otherwise the URL is appended at the end |
| VideoMetricsLayout.RecordSnapshotEntries | src/VideoMetricsLayout.tsx:58-74 | with the URL listed, the length is kept, its first entry is updated in place and every other entry is kept; otherwise the old list is a prefix followed by one updated fresh entry |
| VideoMetricsLayout.RecordSnapshotKeepsUrlsUnique | src/VideoMetricsLayout.tsx:70-74 | recording keeps the list's URLs distinct |
| VideoMetricsLayout.ResetsKeepUrlsUnique | src/Table.tsx:157-182 | both resets keep the list's URLs distinct |
| VideoMetricsLayout.MetricsStore.constructor | src/VideoMetricsLayout.tsx:21-26 | an empty list, the given selected URL and a player counter of 0 |
| VideoMetricsLayout.MetricsStore.HandleRecord | src/VideoMetricsLayout.tsx:56-77 | the list becomes the recorded list for the selected URL, still with distinct URLs, and the player counter rises by one |
| VideoMetricsLayout.MetricsStore.SelectUrl | src/Table.tsx:138 | the selected URL becomes the chosen one |
| VideoMetricsLayout.MetricsStore.ResetSelectedMetrics | src/Table.tsx:157-168 | the list becomes its "Reset Selected" image for the selected URL, still with distinct URLs |
| VideoMetricsLayout.MetricsStore.ResetAllMetrics | src/Table.tsx:173-182 | the list becomes its "Reset All" image, still with distinct URLs |

## Left out

- The time-to-first-byte fetch (`src/MeasurePlayer.tsx:69-88`) is asynchronous network I/O. Only its settling is modelled, by `TtfbSettled`. Raising `calculatingTTFB` at its start sets a flag that is already true, since no earlier transition clears it.
- The video.js set-up is not modelled: `requestAnimationFrame`, `videojs(...)`, `player.ready`, `tech()` and `dispose`. Their values are method parameters instead. `clearTimeout` on unmount is left out too, and the timer is the flag `timeout` plus the method `TimerFires`.
- The `!player` test of `calculateThroughput` is not modelled, because it always passes when reached. `recordMetrics` is exposed from the first render (src/MeasurePlayer.tsx:149-154), before the player exists (:172-178). But it reaches `calculateThroughput` only through `handleEarlyStop`, which calls it only while a timer is pending (:142). Only the `play` handler arms a timer, and that handler runs after the player is set. The timer's own callback also fires only after `play`.
- Rendering is left out: the JSX, `toFixed`, the `setUiTrigger` counter, and the table layout apart from its handlers.
- `src/helper.ts`, `src/main.tsx`, `handleExportReport`, and the export-only types `DeviceInfo` and `MetricsPayload` are not part of this model. They are storage, foreign calls, DOM download and bootstrap code.
- The literal URL table of `src/Table.tsx` is not part of this model. It is the input `groups`.
- JavaScript numbers are IEEE doubles. The model uses exact reals, so rounding, `Infinity` and `NaN` are not modelled.
- MeasurePlayer.ThroughputMbps: requires a start strictly before `now`. An elapsed time of zero would divide by zero and give `Infinity` or `NaN`.
- MeasurePlayer.Collector.CalculateThroughput: requires `now` to be after the start time whenever the guard passes, for the same reason.
- MeasurePlayer.Collector.HandleEarlyStop: carries the same requirement, because it may compute the throughput.
- MeasurePlayer.Collector.Pause: carries the same requirement, because it may compute the throughput.
- MeasurePlayer.Collector.Ended: carries the same requirement, because it may compute the throughput.
- MeasurePlayer.Collector.RecordMetrics: carries the same requirement, because it may compute the throughput.
- MeasurePlayer.Collector.TimerFires: requires the timer to be pending and ten seconds to have passed since the start. This is how the platform timer behaves.
- MeasurePlayer.ErrorRate: requires at least one request. At every completion the code has already counted the request when it was issued.
- VideoMetricsLayout.ApplySnapshot: stamps all seven new records with one `now`. The source reads `Date.now()` once per series (src/VideoMetricsLayout.tsx:12, called seven times at lines 62-68), so its seven timestamps may differ by the time between those calls.
- MeasurePlayer.Collector.RequestCompleted: requires a request in flight. A completion always follows an issue.
- Table.MaxRecords: `Math.max()` over no entry gives minus infinity, which is shown as `None`.
- MeasurePlayer.Collector.Play: one `now` stands for the source's two `performance.now()` readings, the upscaling start (src/MeasurePlayer.tsx:117) and the throughput start (:221). In the source the upscaling start can be slightly earlier than the throughput start; in the model the two are equal.
- MeasurePlayer.Collector.HandleEarlyStop: one `now` stands for the source's two `performance.now()` readings, the throughput's end (src/MeasurePlayer.tsx:98) and the upscaling close (:125). The same holds for Pause, Ended and RecordMetrics, which run it. In the source the upscaling close can be slightly later than the throughput's end.
- MeasurePlayer.Collector.Play: the model sets the playing flag after the upscaling and timer steps, not before them. Nothing in between reads the flag.
