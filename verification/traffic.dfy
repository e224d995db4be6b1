/**
 Per-session traffic accounting: device-wide cumulative byte counters and the
 monotonic clock are read once as a baseline when tracking starts, and every
 sample is the difference between the current readings and that baseline.

 The device (TrafficStats / SystemClock) is not modelled; its readings are
 passed in as a `Readings` value. Counters are unbounded integers: 64-bit
 wrap-around is not modelled and negative deltas are left as they are.
 */
module TrafficAccounting {

  const MillisPerSecond: int := 1000

  /** One reading of the total received bytes, total sent bytes and the clock (ms). */
  datatype Readings = Readings(rx: int, tx: int, nowMs: int)

  /** The per-session usage returned by a sample. */
  datatype NetworkStats = NetworkStats(bytesSent: int, bytesReceived: int, timeConnected: int)

  /** The monitor's baseline and whether a tracking span is open. */
  datatype Monitor = Monitor(startRx: int, startTx: int, startTime: int, isTracking: bool)

  /** A monitor as constructed: Java's default field values. */
  const Fresh: Monitor := Monitor(0, 0, 0, false)

  const ZeroStats: NetworkStats := NetworkStats(0, 0, 0)

  /** The baseline a monitor holds, as the readings it was captured from. */
  function Baseline(m: Monitor): Readings
  {
    Readings(m.startRx, m.startTx, m.startTime)
  }

  /**
   Whole seconds in `ms` milliseconds, as Java's long division by 1000:
   the quotient is truncated toward zero, for negative spans too.
   */
  function WholeSeconds(ms: int): (secs: int)
    ensures 0 <= ms ==> 0 <= secs && secs * MillisPerSecond <= ms < secs * MillisPerSecond + MillisPerSecond
    ensures ms < 0 ==> secs <= 0 && secs * MillisPerSecond - MillisPerSecond < ms <= secs * MillisPerSecond
  {
    if 0 <= ms then ms / MillisPerSecond else -((-ms) / MillisPerSecond)
  }

  /** On a non-negative span, truncation and Dafny's Euclidean division agree. */
  lemma WholeSecondsOfNonNegative(ms: int)
    requires 0 <= ms
    ensures WholeSeconds(ms) == ms / MillisPerSecond
  {
  }

  /** Truncating division by 1000 is monotonic. */
  lemma WholeSecondsMonotonic(a: int, b: int)
    requires a <= b
    ensures WholeSeconds(a) <= WholeSeconds(b)
  {
  }

  /** Opens a tracking span whose baseline is the current readings. */
  function StartTracking(m: Monitor, now: Readings): (m': Monitor)
    ensures m'.isTracking
    ensures Baseline(m') == now
  {
    Monitor(now.rx, now.tx, now.nowMs, true)
  }

  /** Closes the tracking span; the stale baseline is kept. */
  function StopTracking(m: Monitor): (m': Monitor)
    ensures !m'.isTracking
    ensures Baseline(m') == Baseline(m)
  {
    m.(isTracking := false)
  }

  datatype Sampled = Sampled(monitor: Monitor, stats: NetworkStats)

  /**
   Samples the usage of the current span. Outside a span the monitor first
   opens one at the current readings, so that sample is all zeros.
   */
  function Sample(m: Monitor, now: Readings): (r: Sampled)
    ensures r.monitor.isTracking
    ensures m.isTracking ==> r.monitor == m
    ensures !m.isTracking ==> Baseline(r.monitor) == now && r.stats == ZeroStats
    ensures r.stats.bytesSent == now.tx - r.monitor.startTx
    ensures r.stats.bytesReceived == now.rx - r.monitor.startRx
    ensures r.stats.timeConnected == WholeSeconds(now.nowMs - r.monitor.startTime)
  {
    var base := if m.isTracking then m else StartTracking(m, now);
    Sampled(base, NetworkStats(now.tx - base.startTx, now.rx - base.startRx,
                               WholeSeconds(now.nowMs - base.startTime)))
  }

  /** Readings that never go backwards in any counter. */
  predicate ReadingsLe(a: Readings, b: Readings)
  {
    a.rx <= b.rx && a.tx <= b.tx && a.nowMs <= b.nowMs
  }

  predicate StatsLe(a: NetworkStats, b: NetworkStats)
  {
    a.bytesSent <= b.bytesSent && a.bytesReceived <= b.bytesReceived && a.timeConnected <= b.timeConnected
  }

  predicate NonDecreasingReadings(rs: seq<Readings>)
  {
    forall i :: 0 <= i < |rs| - 1 ==> ReadingsLe(rs[i], rs[i + 1])
  }

  predicate NonDecreasingStats(ss: seq<NetworkStats>)
  {
    forall i :: 0 <= i < |ss| - 1 ==> StatsLe(ss[i], ss[i + 1])
  }

  datatype Span = Span(monitor: Monitor, samples: seq<NetworkStats>)

  /** Samples the monitor once per reading, in order, threading the monitor through. */
  function SampleSpan(m: Monitor, rs: seq<Readings>): (r: Span)
    ensures |r.samples| == |rs|
    decreases |rs|
  {
    if |rs| == 0 then Span(m, [])
    else
      var first := Sample(m, rs[0]);
      var rest := SampleSpan(first.monitor, rs[1..]);
      Span(rest.monitor, [first.stats] + rest.samples)
  }

  /** Two samples in the same span, the later one on larger readings, are ordered. */
  lemma SampleMonotonic(m: Monitor, a: Readings, b: Readings)
    requires m.isTracking
    requires ReadingsLe(a, b)
    ensures StatsLe(Sample(m, a).stats, Sample(m, b).stats)
  {
    WholeSecondsMonotonic(a.nowMs - m.startTime, b.nowMs - m.startTime);
  }

  /**
   Sampling never moves the baseline once a span is open: every sample of a
   run is taken against the baseline the span started with, and the monitor
   ends the run tracking.
   */
  lemma {:induction false} SpanKeepsBaseline(m: Monitor, rs: seq<Readings>)
    requires m.isTracking
    ensures SampleSpan(m, rs).monitor == m
    ensures forall i :: 0 <= i < |rs| ==> SampleSpan(m, rs).samples[i] == Sample(m, rs[i]).stats
    decreases |rs|
  {
    if |rs| > 0 {
      SpanKeepsBaseline(m, rs[1..]);
      var rest := SampleSpan(m, rs[1..]);
      forall i | 0 <= i < |rs|
        ensures SampleSpan(m, rs).samples[i] == Sample(m, rs[i]).stats
      {
        if i > 0 {
          assert SampleSpan(m, rs).samples[i] == rest.samples[i - 1];
          assert rs[1..][i - 1] == rs[i];
        }
      }
    }
  }

  /**
   With counter readings that never go backwards, the samples of one run are
   non-decreasing in sent bytes, received bytes and connected seconds, whether
   or not a span was open when the run began.
   */
  lemma {:induction false} SpanSamplesNonDecreasing(m: Monitor, rs: seq<Readings>)
    requires NonDecreasingReadings(rs)
    ensures NonDecreasingStats(SampleSpan(m, rs).samples)
  {
    if |rs| > 0 {
      var base := Sample(m, rs[0]).monitor;
      SpanKeepsBaseline(base, rs[1..]);
      var ss := SampleSpan(m, rs).samples;
      forall i | 0 <= i < |ss| - 1
        ensures StatsLe(ss[i], ss[i + 1])
      {
        assert rs[1..][i] == rs[i + 1];
        if i > 0 {
          assert rs[1..][i - 1] == rs[i];
        }
        assert ss[i] == Sample(base, rs[i]).stats;
        assert ss[i + 1] == Sample(base, rs[i + 1]).stats;
        SampleMonotonic(base, rs[i], rs[i + 1]);
      }
    }
  }

  /**
   A stopped span cannot be read back: the next sample opens a new span at
   the current readings and reports zeros, so the kept stale baseline is
   only visible in the monitor itself.
   */
  lemma SampleAfterStopRestarts(m: Monitor, now: Readings)
    ensures Baseline(StopTracking(m)) == Baseline(m)
    ensures Sample(StopTracking(m), now).stats == ZeroStats
    ensures Sample(StopTracking(m), now).monitor == StartTracking(m, now)
  {
  }

  /** A monitor never started samples all zeros and opens its span at the current readings. */
  lemma FirstSampleIsZero(now: Readings)
    ensures Sample(Fresh, now).stats == ZeroStats
    ensures Sample(Fresh, now).monitor == StartTracking(Fresh, now)
  {
  }
}
