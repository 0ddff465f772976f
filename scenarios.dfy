/**
 * Whole-session scenarios for the collector: each drives one `Collector` through a sequence
 * of callbacks and states the resulting figure.
 */
module Scenarios {
  import opened Wrappers
  import opened MeasurePlayer

  /** Ten requests issued, eight answered with 200 and two with 500: a 20% error rate. */
  method ErrorRateScenario() returns (rate: real)
    ensures rate == 20.0
  {
    var c := new Collector(false, true);
    var i := 0;
    while i < 10
      invariant 0 <= i <= 10
      invariant c.Valid() && c.requestCount == i && c.inFlight == i && c.errorCount == 0
    {
      c.RequestIssued();
      i := i + 1;
    }
    i := 0;
    while i < 8
      invariant 0 <= i <= 8
      invariant c.Valid() && c.requestCount == 10 && c.inFlight == 10 - i && c.errorCount == 0
    {
      var _, _ := c.RequestCompleted(None, Some(XhrResponse(200)));
      i := i + 1;
    }
    var _, _ := c.RequestCompleted(None, Some(XhrResponse(500)));
    var _, _ := c.RequestCompleted(None, Some(XhrResponse(500)));
    rate := c.metrics.errorRate;
  }

  /** A new collector that announced renditions 320, 640 and 1280 wide, then played the widest at 1000 ms. */
  method PlayingAtWidest() returns (c: Collector)
    ensures fresh(c) && c.Valid() && c.clock <= 1000.0
    ensures c.isPlaying && c.originalWidth == 1280 && c.upscalingStart.None? && c.totalUpscalingTime == 0.0
  {
    c := new Collector(false, true);
    c.AddQualityLevel(320);
    c.AddQualityLevel(640);
    c.AddQualityLevel(1280);
    assert c.originalWidth == 1280;
    c.Play(1000.0, Some(QualityLevel(1280, 4000000)), None);
  }

  /**
   * Renditions 320, 640 and 1280 pixels wide; 1280 selected at play opens no window,
   * switching to 320 two seconds later opens one, pausing three seconds after that closes it.
   */
  method UpscalingScenario() returns (openedAtPlay: bool, openedAtSwitch: bool, seconds: real)
    ensures !openedAtPlay && openedAtSwitch && seconds == 3.0
  {
    var c := PlayingAtWidest();
    openedAtPlay := c.upscalingStart.Some?;
    c.Change(2000.0, Some(QualityLevel(320, 800000)), None);
    assert c.upscalingStart == Some(2000.0) && c.totalUpscalingTime == 0.0;
    openedAtSwitch := c.upscalingStart.Some?;
    c.Pause(5000.0, 0);
    seconds := c.metrics.upscalingTime;
  }

  /**
   * Toggling the selected width from 85% to 95% of the target and back: the window closes,
   * reopens, and the second stretch adds to the first.
   */
  method UpscalingToggleScenario() returns (closedAfterRaise: bool, seconds: real)
    ensures closedAfterRaise && seconds == 3.0
  {
    var c := new Collector(false, true);
    c.AddQualityLevel(1000);
    c.Play(1000.0, Some(QualityLevel(850, 1000000)), None);
    assert c.isPlaying && c.originalWidth == 1000 && c.upscalingStart == Some(1000.0);
    c.Change(2000.0, Some(QualityLevel(950, 1000000)), None);
    assert c.totalUpscalingTime == 1000.0;
    closedAfterRaise := c.upscalingStart.None?;
    c.Change(4000.0, Some(QualityLevel(850, 1000000)), None);
    assert c.upscalingStart == Some(4000.0) && c.totalUpscalingTime == 1000.0;
    c.Pause(6000.0, 0);
    seconds := c.metrics.upscalingTime;
  }

  /** Two stalls of 200 ms and 400 ms: two stalls counted, a mean latency of 300 ms. */
  method RebufferScenario() returns (stalls: nat, latency: real)
    ensures stalls == 2 && latency == 300.0
  {
    var c := new Collector(false, true);
    c.Waiting(100.0);
    c.Playing(300.0);
    c.Waiting(1000.0);
    c.Playing(1400.0);
    stalls, latency := c.metrics.stallCount, c.metrics.latency;
    Stats.SumAppend([200.0], 400.0);
  }

  /**
   * A byte counter at 12.5 MB ten seconds after the start gives 10 Mbps; a later pause,
   * with a higher counter, does not recompute it, and no timer is left pending
   * that could measure again.
   */
  method ThroughputOnceScenario() returns (atTimer: real, afterPause: real, pending: bool)
    ensures atTimer == 10.0 && afterPause == 10.0 && !pending
  {
    var c := new Collector(false, true);
    c.Play(1000.0, None, None);
    c.TimerFires(11000.0, 12500000);
    atTimer := c.metrics.throughput;
    c.Pause(20000.0, 30000000);
    afterPause, pending := c.metrics.throughput, c.timeout;
  }
}
