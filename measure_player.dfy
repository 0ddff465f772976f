/**
 * The per-session metrics collector of `src/MeasurePlayer.tsx`: the mutable cells the
 * component keeps in `useRef`s, and one method per video.js callback that updates them.
 *
 * `performance.now()` is the parameter `now` (milliseconds, never decreasing: the ghost
 * field `clock` remembers the last reading), the selected quality level
 * `qualityLevels[qualityLevels.selectedIndex]` is the parameter `selected` (`None` when the
 * index points nowhere), the rendered element width is `elementWidth` (`None` when there is
 * no element), and the byte counter `vhs.stats.mediaBytesTransferred || 0` is `bytes`.
 */
module MeasurePlayer {
  import opened Wrappers
  import opened Stats

  /** Time the throughput measurement runs before its one-shot timer fires, in seconds. */
  const MinMeasureTime: int := 10

  /** One adaptive-bitrate rendition: width in pixels, bitrate in bits per second. */
  datatype QualityLevel = QualityLevel(width: int, bitrate: int)

  /** The part of a transport response the error counter looks at. */
  datatype XhrResponse = XhrResponse(status: int)

  /** The live snapshot `metricsRef.current`. */
  datatype Metrics = Metrics(
    timeToFirstByte: real,       // ms
    latency: real,               // ms, mean of the rebuffer samples
    throughput: real,            // Mbps
    errorRate: real,             // percent of issued requests
    stallCount: nat,
    upscalingTime: real,         // seconds
    averageBitrate: real,        // kbps, mean of the bitrate samples
    calculatingTtfb: bool,
    calculatingThroughput: bool,
    calculatingUpscaling: bool)

  /** The snapshot a freshly mounted player starts from. */
  const InitialMetrics: Metrics :=
    Metrics(0.0, 0.0, 0.0, 0.0, 0, 0.0, 0.0, true, false, false)

  /**
   * `getTargetWidth`: the lesser of the widest known rendition and the element width,
   * or the widest rendition alone when there is no element.
   */
  function TargetWidth(originalWidth: int, elementWidth: Option<int>): (t: int)
    ensures t <= originalWidth
    ensures elementWidth.None? ==> t == originalWidth
    ensures elementWidth.Some? ==> t <= elementWidth.value && (t == originalWidth || t == elementWidth.value)
  {
    match elementWidth
    case None => originalWidth
    case Some(w) => if originalWidth <= w then originalWidth else w
  }

  /** `needsUpscaling`: the selected width is below 90% of the target width. */
  function NeedsUpscaling(currentWidth: int, originalWidth: int, elementWidth: Option<int>): (b: bool)
    ensures b <==> 10 * currentWidth < 9 * originalWidth
                   && (elementWidth.Some? ==> 10 * currentWidth < 9 * elementWidth.value)
  {
    var target := TargetWidth(originalWidth, elementWidth);
    assert (currentWidth as real < target as real * 0.9) <==> (10 * currentWidth < 9 * target);
    currentWidth as real < target as real * 0.9
  }

  /**
   * The throughput formula of `calculateThroughput`: the byte counter's total in bits, over
   * the seconds since the start, in megabits per second.
   */
  function ThroughputMbps(bytes: nat, start: real, now: real): (r: real)
    requires start < now
    ensures 0.0 <= r
    ensures r == 0.0 <==> bytes == 0
    ensures r * ((now - start) / 1000.0) * 1000000.0 == (bytes * 8) as real
  {
    var secondsUsed := (now - start) / 1000.0;
    (bytes * 8) as real / secondsUsed / 1000000.0
  }

  /**
   * The value of the closure variable `originalWidth` after the given widths were announced
   * by `addqualitylevel`, in order: it starts at 0 and takes each strictly wider width.
   */
  ghost function MaxWidth(ws: seq<int>): int
  {
    if ws == [] then 0
    else
      var m := MaxWidth(ws[..|ws| - 1]);
      if ws[|ws| - 1] > m then ws[|ws| - 1] else m
  }

  /** `MaxWidth` is the maximum of the announced widths, or 0 when none is positive. */
  lemma {:induction false} MaxWidthIsMax(ws: seq<int>)
    ensures 0 <= MaxWidth(ws)
    ensures forall i :: 0 <= i < |ws| ==> ws[i] <= MaxWidth(ws)
    ensures MaxWidth(ws) == 0 || exists i :: 0 <= i < |ws| && ws[i] == MaxWidth(ws)
  {
    if ws != [] {
      var init := ws[..|ws| - 1];
      MaxWidthIsMax(init);
      assert forall i :: 0 <= i < |init| ==> init[i] == ws[i];
      if MaxWidth(init) != 0 && MaxWidth(ws) == MaxWidth(init) {
        var i :| 0 <= i < |init| && init[i] == MaxWidth(init);
        assert ws[i] == MaxWidth(ws);
      }
    }
  }

  /** The transport reports a failure: an error object, or an HTTP status of 400 or more. */
  predicate RequestFailed(error: Option<string>, response: Option<XhrResponse>)
  {
    error.Some? || (response.Some? && response.value.status >= 400)
  }

  /** Milliseconds an open window has been open at `now`; 0 for a closed window. */
  function OpenFor(window: Option<real>, now: real): real
  {
    if window.Some? then now - window.value else 0.0
  }

  /** The error rate `errorCount / requestCount * 100` of the xhr wrapper, as a percentage. */
  function ErrorRate(errors: nat, requests: nat): (r: real)
    requires 0 < requests
    ensures r * requests as real == 100.0 * errors as real
    ensures errors <= requests ==> 0.0 <= r <= 100.0
    ensures r == 0.0 <==> errors == 0
  {
    var ratio := errors as real / requests as real;
    assert errors <= requests ==> ratio <= 1.0;
    ratio * 100.0
  }

  class Collector {
    var isPlaying: bool
    // the upscaling window
    var upscalingStart: Option<real>
    var totalUpscalingTime: real
    // the rebuffer window
    var latencyStart: Option<real>
    var latencySamples: seq<real>
    // the xhr counters
    var errorCount: nat
    var requestCount: nat
    var lastBitrateSamples: seq<real>
    // the throughput one-shot: `timeout` says whether the timer handle is set
    var timeout: bool
    var startTime: Option<real>
    var hasMeasuredThroughput: bool
    var metrics: Metrics
    // the widest rendition announced so far
    var originalWidth: int
    // the component's props
    const autoRecord: bool
    const hasOnRecord: bool

    ghost var clock: real              // the last `performance.now()` reading
    ghost var addedWidths: seq<int>    // widths announced by `addqualitylevel`
    ghost var inFlight: nat            // requests issued and not yet completed
    ghost var completed: nat           // requests completed
    // How often the body of `calculateThroughput` has run. `Valid` keeps it at 0 or 1, so this
    // counter witnesses the one-shot promise over any sequence of callbacks, not just the flag.
    ghost var throughputRuns: nat

    /** The collector's invariant: one conjunct per measurement, over the cells it uses. */
    ghost predicate Valid()
      reads this`clock, this`upscalingStart, this`totalUpscalingTime, this`metrics,
            this`latencyStart, this`latencySamples, this`lastBitrateSamples,
            this`completed, this`inFlight, this`requestCount, this`errorCount,
            this`timeout, this`startTime, this`hasMeasuredThroughput, this`throughputRuns,
            this`originalWidth, this`addedWidths
    {
      && 0.0 <= clock
      && UpscalingValid() && RebufferValid() && BitrateValid()
      && RequestsValid() && ThroughputValid() && WidthValid()
    }

    /** The upscaling window: the snapshot shows the accumulated seconds, "measuring" while open. */
    ghost predicate UpscalingValid()
      reads this`clock, this`upscalingStart, this`totalUpscalingTime, this`metrics
    {
      && (upscalingStart.Some? ==> 0.0 <= upscalingStart.value <= clock)
      && 0.0 <= totalUpscalingTime
      && metrics.upscalingTime == totalUpscalingTime / 1000.0
      && (metrics.calculatingUpscaling <==> upscalingStart.Some?)
    }

    /**
     * The rebuffer window: the snapshot shows the mean sample, every sample came from a stall,
     * and no sample, nor their mean, is longer than the time elapsed so far.
     */
    ghost predicate RebufferValid()
      reads this`clock, this`latencyStart, this`latencySamples, this`metrics
    {
      && (latencyStart.Some? ==> 0.0 <= latencyStart.value <= clock)
      && (forall i :: 0 <= i < |latencySamples| ==> 0.0 <= latencySamples[i] <= clock)
      && metrics.latency == (if latencySamples == [] then 0.0 else Mean(latencySamples))
      && 0.0 <= metrics.latency <= clock
      && |latencySamples| + (if latencyStart.Some? then 1 else 0) <= metrics.stallCount
    }

    /** The bitrate samples: the snapshot shows their mean in kbps. */
    ghost predicate BitrateValid()
      reads this`lastBitrateSamples, this`metrics
    {
      metrics.averageBitrate == (if lastBitrateSamples == [] then 0.0 else Mean(lastBitrateSamples) / 1000.0)
    }

    /** The request counters: every failure was counted on a completed, issued request. */
    ghost predicate RequestsValid()
      reads this`completed, this`inFlight, this`requestCount, this`errorCount, this`metrics
    {
      && completed + inFlight == requestCount
      && errorCount <= completed
      && (errorCount == 0 ==> metrics.errorRate == 0.0)
      && 0.0 <= metrics.errorRate <= 100.0
    }

    /** The throughput one-shot: the timer is pending exactly while a measurement is started and not done. */
    ghost predicate ThroughputValid()
      reads this`clock, this`timeout, this`startTime, this`hasMeasuredThroughput, this`metrics, this`throughputRuns
    {
      && (startTime.Some? ==> 0.0 <= startTime.value <= clock)
      && (timeout <==> startTime.Some? && !hasMeasuredThroughput)
      && (hasMeasuredThroughput ==> startTime.Some?)
      && (metrics.calculatingThroughput <==> timeout)
      && throughputRuns == (if hasMeasuredThroughput then 1 else 0)
      && 0.0 <= metrics.throughput
    }

    /** The quality levels: `originalWidth` is the running maximum of the announced widths. */
    ghost predicate WidthValid()
      reads this`originalWidth, this`addedWidths
    {
      originalWidth == MaxWidth(addedWidths)
    }

    constructor (autoRecord: bool, hasOnRecord: bool)
      ensures Valid()
      ensures this.autoRecord == autoRecord && this.hasOnRecord == hasOnRecord
      ensures metrics == InitialMetrics
      ensures !isPlaying && upscalingStart.None? && totalUpscalingTime == 0.0
      ensures latencyStart.None? && latencySamples == [] && lastBitrateSamples == []
      ensures errorCount == 0 && requestCount == 0
      ensures !timeout && startTime.None? && !hasMeasuredThroughput && originalWidth == 0
      ensures clock == 0.0 && addedWidths == [] && inFlight == 0
    {
      this.autoRecord := autoRecord;
      this.hasOnRecord := hasOnRecord;
      isPlaying := false;
      upscalingStart := None;
      totalUpscalingTime := 0.0;
      latencyStart := None;
      latencySamples := [];
      errorCount := 0;
      requestCount := 0;
      lastBitrateSamples := [];
      timeout := false;
      startTime := None;
      hasMeasuredThroughput := false;
      metrics := InitialMetrics;
      originalWidth := 0;
      clock := 0.0;
      addedWidths := [];
      inFlight := 0;
      completed := 0;
      throughputRuns := 0;
    }

    /** The guard of `calculateThroughput` lets it through: a truthy start time, no result yet. */
    predicate ThroughputArmed()
      reads this
    {
      startTime.Some? && startTime.value != 0.0 && !hasMeasuredThroughput
    }

    /** `calculateThroughput`: computes the throughput at most once and clears the timer. */
    method CalculateThroughput(now: real, bytes: nat)
      requires Valid() && clock <= now
      requires ThroughputArmed() ==> startTime.value < now
      modifies this`hasMeasuredThroughput, this`metrics, this`timeout, this`throughputRuns, this`clock
      ensures Valid() && old(clock) <= clock <= now
      ensures !old(ThroughputArmed()) ==> unchanged(this)
      ensures old(ThroughputArmed()) ==>
        && hasMeasuredThroughput && !timeout
        && metrics == old(metrics).(throughput := ThroughputMbps(bytes, old(startTime.value), now),
                                    calculatingThroughput := false)
    {
      if !ThroughputArmed() {
        return;
      }
      hasMeasuredThroughput := true;
      throughputRuns := throughputRuns + 1;
      metrics := metrics.(throughput := ThroughputMbps(bytes, startTime.value, now),
                          calculatingThroughput := false);
      if timeout {
        timeout := false;
      }
      clock := now;
    }

    /** `startUpscaling`: opens the upscaling window unless it is already open. */
    method StartUpscaling(now: real)
      requires Valid() && clock <= now
      modifies this`upscalingStart, this`metrics, this`clock
      ensures Valid() && old(clock) <= clock <= now
      ensures old(upscalingStart).Some? ==> unchanged(this)
      ensures upscalingStart == if old(upscalingStart).None? then Some(now) else old(upscalingStart)
      ensures metrics == old(metrics).(calculatingUpscaling := true)
    {
      if upscalingStart.None? {
        upscalingStart := Some(now);
        metrics := metrics.(calculatingUpscaling := true);
        clock := now;
      }
    }

    /** `stopUpscaling`: closes an open upscaling window and adds its length to the total. */
    method StopUpscaling(now: real)
      requires Valid() && clock <= now
      modifies this`upscalingStart, this`totalUpscalingTime, this`metrics, this`clock
      ensures Valid() && old(clock) <= clock <= now
      ensures old(upscalingStart).None? ==> unchanged(this)
      ensures old(upscalingStart).Some? ==>
        && upscalingStart.None?
        && totalUpscalingTime == old(totalUpscalingTime) + (now - old(upscalingStart).value)
        && metrics == old(metrics).(upscalingTime := totalUpscalingTime / 1000.0,
                                    calculatingUpscaling := false)
      ensures old(totalUpscalingTime) <= totalUpscalingTime
    {
      if upscalingStart.Some? {
        totalUpscalingTime := totalUpscalingTime + (now - upscalingStart.value);
        upscalingStart := None;
        metrics := metrics.(upscalingTime := totalUpscalingTime / 1000.0,
                            calculatingUpscaling := false);
        clock := now;
      }
    }

    /**
     * The outcome of `handleEarlyStop` at `now`, with `bytes` transferred: playback stops, the
     * upscaling window closes and its open time is added to the total, which is shown in
     * seconds; the throughput is
     * measured exactly when its guard passed, and otherwise every throughput cell is kept; the
     * other figures of the snapshot are unchanged.
     */
    twostate predicate EarlyStopped(now: real, bytes: nat)
      reads this
    {
      && !isPlaying && upscalingStart.None? && !metrics.calculatingUpscaling
      && totalUpscalingTime == old(totalUpscalingTime) + OpenFor(old(upscalingStart), now)
      && old(totalUpscalingTime) <= totalUpscalingTime
      && metrics.upscalingTime == totalUpscalingTime / 1000.0
      && (old(ThroughputArmed()) ==>
            && hasMeasuredThroughput && !timeout && !metrics.calculatingThroughput
            && old(startTime).Some? && old(startTime).value < now
            && metrics.throughput == ThroughputMbps(bytes, old(startTime).value, now))
      && (!old(ThroughputArmed()) ==>
            && hasMeasuredThroughput == old(hasMeasuredThroughput) && timeout == old(timeout)
            && metrics.throughput == old(metrics.throughput)
            && metrics.calculatingThroughput == old(metrics.calculatingThroughput))
      && metrics.(throughput := old(metrics.throughput),
                  calculatingThroughput := old(metrics.calculatingThroughput),
                  upscalingTime := old(metrics.upscalingTime),
                  calculatingUpscaling := old(metrics.calculatingUpscaling)) == old(metrics)
    }

    /**
     * `handleEarlyStop`: computes the throughput if its timer is still pending, closes the
     * upscaling window and marks the session as not playing.
     */
    method HandleEarlyStop(now: real, bytes: nat)
      requires Valid() && clock <= now
      requires ThroughputArmed() ==> startTime.value < now
      modifies this`hasMeasuredThroughput, this`metrics, this`timeout, this`throughputRuns,
               this`clock, this`upscalingStart, this`totalUpscalingTime, this`isPlaying
      ensures Valid() && old(clock) <= clock <= now
      ensures EarlyStopped(now, bytes)
    {
      if timeout {
        CalculateThroughput(now, bytes);
      }
      StopUpscaling(now);
      isPlaying := false;
    }

    /** The `play` callback. */
    method Play(now: real, selected: Option<QualityLevel>, elementWidth: Option<int>)
      requires Valid() && clock <= now
      modifies this`isPlaying, this`upscalingStart, this`metrics, this`clock, this`startTime, this`timeout
      ensures Valid() && old(clock) <= clock <= now
      ensures isPlaying
      ensures upscalingStart ==
        if old(upscalingStart).None? && selected.Some? && originalWidth > 0
           && NeedsUpscaling(selected.value.width, originalWidth, elementWidth)
        then Some(now) else old(upscalingStart)
      ensures if !hasMeasuredThroughput && !old(timeout)
              then startTime == Some(now) && timeout
              else startTime == old(startTime) && timeout == old(timeout)
      ensures metrics == old(metrics).(calculatingUpscaling := upscalingStart.Some?,
                                       calculatingThroughput := timeout)
    {
      UpscaleOnPlay(now, selected, elementWidth);
      ArmThroughputTimer(now);
      // set first in the callback; nothing in between reads it, so the order is immaterial
      isPlaying := true;
    }

    /**
     * The upscaling part of `play`: opens the window when the current level qualifies,
     * which needs at least one announced rendition.
     */
    method UpscaleOnPlay(now: real, selected: Option<QualityLevel>, elementWidth: Option<int>)
      requires Valid() && clock <= now
      modifies this`upscalingStart, this`metrics, this`clock
      ensures Valid() && old(clock) <= clock <= now
      ensures upscalingStart ==
        if old(upscalingStart).None? && selected.Some? && originalWidth > 0
           && NeedsUpscaling(selected.value.width, originalWidth, elementWidth)
        then Some(now) else old(upscalingStart)
      ensures metrics == old(metrics).(calculatingUpscaling := upscalingStart.Some?)
    {
      if selected.Some? && originalWidth > 0 && NeedsUpscaling(selected.value.width, originalWidth, elementWidth) {
        StartUpscaling(now);
      }
    }

    /**
     * The throughput part of `play`: unless a measurement was made or is pending, records the
     * start time and arms the one-shot timer.
     */
    method ArmThroughputTimer(now: real)
      requires Valid() && clock <= now
      modifies this`metrics, this`clock, this`startTime, this`timeout
      ensures Valid() && old(clock) <= clock <= now
      ensures hasMeasuredThroughput || old(timeout) ==> unchanged(this)
      ensures !hasMeasuredThroughput && !old(timeout) ==> startTime == Some(now)
      ensures timeout == !hasMeasuredThroughput
      ensures metrics == old(metrics).(calculatingThroughput := timeout)
    {
      if !hasMeasuredThroughput && !timeout {
        startTime := Some(now);
        metrics := metrics.(calculatingThroughput := true);
        timeout := true;
        clock := now;
      }
    }

    /** The `pause` callback. */
    method Pause(now: real, bytes: nat)
      requires Valid() && clock <= now
      requires ThroughputArmed() ==> startTime.value < now
      modifies this`hasMeasuredThroughput, this`metrics, this`timeout, this`throughputRuns,
               this`clock, this`upscalingStart, this`totalUpscalingTime, this`isPlaying
      ensures Valid() && old(clock) <= clock <= now
      ensures EarlyStopped(now, bytes)
    {
      HandleEarlyStop(now, bytes);
    }

    /** The `ended` callback: an early stop, then the snapshot handed on when auto-recording. */
    method Ended(now: real, bytes: nat) returns (recorded: Option<Metrics>)
      requires Valid() && clock <= now
      requires ThroughputArmed() ==> startTime.value < now
      modifies this`hasMeasuredThroughput, this`metrics, this`timeout, this`throughputRuns,
               this`clock, this`upscalingStart, this`totalUpscalingTime, this`isPlaying
      ensures Valid() && old(clock) <= clock <= now
      ensures EarlyStopped(now, bytes)
      ensures recorded == if autoRecord && hasOnRecord then Some(metrics) else None
    {
      HandleEarlyStop(now, bytes);
      recorded := if autoRecord && hasOnRecord then Some(metrics) else None;
    }

    /** `recordMetrics`: an early stop, then the current snapshot handed to `onRecord`. */
    method RecordMetrics(now: real, bytes: nat) returns (recorded: Option<Metrics>)
      requires Valid() && clock <= now
      requires ThroughputArmed() ==> startTime.value < now
      modifies this`hasMeasuredThroughput, this`metrics, this`timeout, this`throughputRuns,
               this`clock, this`upscalingStart, this`totalUpscalingTime, this`isPlaying
      ensures Valid() && old(clock) <= clock <= now
      ensures EarlyStopped(now, bytes)
      ensures recorded == if hasOnRecord then Some(metrics) else None
    {
      HandleEarlyStop(now, bytes);
      recorded := if hasOnRecord then Some(metrics) else None;
    }

    /** The throughput timer fires, `MinMeasureTime` seconds after `play` armed it. */
    method TimerFires(now: real, bytes: nat)
      requires Valid() && clock <= now && timeout
      requires startTime.value + (MinMeasureTime * 1000) as real <= now
      modifies this`hasMeasuredThroughput, this`metrics, this`timeout, this`throughputRuns, this`clock
      ensures Valid() && old(clock) <= clock <= now
      ensures !old(ThroughputArmed()) ==> unchanged(this)
      ensures old(ThroughputArmed()) ==>
        && hasMeasuredThroughput && !timeout
        && metrics == old(metrics).(throughput := ThroughputMbps(bytes, old(startTime.value), now),
                                    calculatingThroughput := false)
    {
      CalculateThroughput(now, bytes);
    }

    /** The `addqualitylevel` callback: `originalWidth` follows the widest rendition. */
    method AddQualityLevel(width: int)
      requires Valid()
      modifies this`originalWidth, this`addedWidths
      ensures Valid()
      ensures addedWidths == old(addedWidths) + [width]
      ensures originalWidth == if width > old(originalWidth) then width else old(originalWidth)
    {
      ghost var ws := addedWidths + [width];
      assert ws[..|ws| - 1] == addedWidths;
      assert MaxWidth(ws) == if width > originalWidth then width else originalWidth;
      addedWidths := ws;
      if width > originalWidth {
        originalWidth := width;
      }
    }

    /** `originalWidth` is always the widest width announced so far (0 before any). */
    lemma OriginalWidthIsWidest()
      requires Valid()
      ensures 0 <= originalWidth
      ensures forall i :: 0 <= i < |addedWidths| ==> addedWidths[i] <= originalWidth
      ensures originalWidth == 0 || originalWidth in addedWidths
    {
      MaxWidthIsMax(addedWidths);
    }

    /**
     * The quality-level `change` callback: samples the bitrate in every state, and while
     * playing opens or closes the upscaling window according to `NeedsUpscaling`.
     */
    method Change(now: real, selected: Option<QualityLevel>, elementWidth: Option<int>)
      requires Valid() && clock <= now
      modifies this`lastBitrateSamples, this`metrics, this`upscalingStart, this`totalUpscalingTime, this`clock
      ensures Valid() && old(clock) <= clock <= now
      ensures selected.None? ==> unchanged(this)
      ensures selected.Some? ==>
        && lastBitrateSamples == old(lastBitrateSamples) + [selected.value.bitrate as real]
        && metrics.averageBitrate == Mean(lastBitrateSamples) / 1000.0
      ensures selected.Some? && !isPlaying ==>
        upscalingStart == old(upscalingStart) && totalUpscalingTime == old(totalUpscalingTime)
      ensures selected.Some? && isPlaying && NeedsUpscaling(selected.value.width, originalWidth, elementWidth) ==>
        && upscalingStart == (if old(upscalingStart).Some? then old(upscalingStart) else Some(now))
        && totalUpscalingTime == old(totalUpscalingTime)
      ensures selected.Some? && isPlaying && !NeedsUpscaling(selected.value.width, originalWidth, elementWidth) ==>
        && upscalingStart.None?
        && totalUpscalingTime == old(totalUpscalingTime) + OpenFor(old(upscalingStart), now)
      ensures old(totalUpscalingTime) <= totalUpscalingTime
      ensures metrics.(averageBitrate := old(metrics.averageBitrate),
                       upscalingTime := old(metrics.upscalingTime),
                       calculatingUpscaling := old(metrics.calculatingUpscaling)) == old(metrics)
    {
      if selected.None? {
        return;
      }
      var level := selected.value;
      SampleBitrate(level.bitrate);
      if !isPlaying {
        return;
      }
      if NeedsUpscaling(level.width, originalWidth, elementWidth) {
        StartUpscaling(now);
      } else {
        StopUpscaling(now);
      }
    }

    /** The bitrate part of `change`: one more sample, and the average re-taken in kbps. */
    method SampleBitrate(bitrate: int)
      requires Valid()
      modifies this`lastBitrateSamples, this`metrics
      ensures Valid()
      ensures lastBitrateSamples == old(lastBitrateSamples) + [bitrate as real]
      ensures metrics == old(metrics).(averageBitrate := Mean(lastBitrateSamples) / 1000.0)
    {
      lastBitrateSamples := lastBitrateSamples + [bitrate as real];
      metrics := metrics.(averageBitrate := Mean(lastBitrateSamples) / 1000.0);
    }

    /** The `waiting` callback: one more stall, and the rebuffer window (re)opens now. */
    method Waiting(now: real)
      requires Valid() && clock <= now
      modifies this`metrics, this`latencyStart, this`clock
      ensures Valid() && clock == now
      ensures latencyStart == Some(now)
      ensures metrics == old(metrics).(stallCount := old(metrics.stallCount) + 1)
    {
      metrics := metrics.(stallCount := metrics.stallCount + 1);
      latencyStart := Some(now);
      clock := now;
    }

    /** The `playing` callback: closes an open rebuffer window and re-averages the samples. */
    method Playing(now: real)
      requires Valid() && clock <= now
      modifies this`latencySamples, this`metrics, this`latencyStart, this`clock
      ensures Valid() && old(clock) <= clock <= now
      ensures old(latencyStart).None? ==> unchanged(this)
      ensures old(latencyStart).Some? ==>
        && latencyStart.None?
        && latencySamples == old(latencySamples) + [now - old(latencyStart).value]
        && metrics == old(metrics).(latency := Mean(latencySamples))
    {
      if latencyStart.Some? {
        var sample := now - latencyStart.value;
        latencySamples := latencySamples + [sample];
        metrics := metrics.(latency := Mean(latencySamples));
        latencyStart := None;
        clock := now;
        MeanBounds(latencySamples, 0.0, now);
      }
    }

    /** The wrapped `vhs.xhr` issues a request: it is counted before it is sent on. */
    method RequestIssued()
      requires Valid()
      modifies this`requestCount, this`inFlight
      ensures Valid()
      ensures requestCount == old(requestCount) + 1 && inFlight == old(inFlight) + 1
    {
      requestCount := requestCount + 1;
      inFlight := inFlight + 1;
    }

    /**
     * The wrapped callback of a completed request: a failure is counted and the error rate
     * recomputed; the original callback gets the same error and response.
     */
    method RequestCompleted(error: Option<string>, response: Option<XhrResponse>)
      returns (forwardedError: Option<string>, forwardedResponse: Option<XhrResponse>)
      requires Valid() && inFlight > 0
      modifies this`errorCount, this`metrics, this`inFlight, this`completed
      ensures Valid()
      ensures forwardedError == error && forwardedResponse == response
      ensures inFlight == old(inFlight) - 1
      ensures errorCount == old(errorCount) + (if RequestFailed(error, response) then 1 else 0)
      ensures RequestFailed(error, response) ==>
        && metrics.errorRate * requestCount as real == 100.0 * errorCount as real
        && metrics == old(metrics).(errorRate := ErrorRate(errorCount, requestCount))
      ensures !RequestFailed(error, response) ==> metrics == old(metrics)
    {
      inFlight, completed := inFlight - 1, completed + 1;
      if RequestFailed(error, response) {
        var failures := errorCount + 1;
        var rate := ErrorRate(failures, requestCount);
        errorCount, metrics := failures, metrics.(errorRate := rate);
      }
      forwardedError, forwardedResponse := error, response;
    }

    /**
     * The time-to-first-byte fetch settles: with the elapsed time on success, without it on
     * failure; either way it is no longer being measured.
     */
    method TtfbSettled(elapsed: Option<real>)
      requires Valid()
      modifies this`metrics
      ensures Valid()
      ensures !metrics.calculatingTtfb
      ensures metrics.timeToFirstByte == elapsed.GetOr(old(metrics.timeToFirstByte))
      ensures metrics.(timeToFirstByte := old(metrics.timeToFirstByte), calculatingTtfb := old(metrics.calculatingTtfb))
              == old(metrics)
    {
      if elapsed.Some? {
        metrics := metrics.(timeToFirstByte := elapsed.value, calculatingTtfb := false);
      } else {
        metrics := metrics.(calculatingTtfb := false);
      }
    }
  }
}
