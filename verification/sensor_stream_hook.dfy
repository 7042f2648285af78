/** useSensorStream (src/hooks/useSensorStream.ts): the live-metrics path. Accelerometer
    packets are appended to a buffer capped at maxReadings; whenever the buffer holds at
    least 10 readings it is smoothed with a 5-point moving average and the tremor index,
    dominant frequency and severity are recomputed from the smoothed signal. The hook's
    state cells are the fields of a SensorStream object and its two effects run at the end
    of OnAccelerometerPacket. */
module SensorStreamHook {
  import opened Types
  import opened Numeric
  import opened Seqs
  import opened SensorService

  /** The default of the maxReadings parameter. */
  const DEFAULT_MAX_READINGS: nat := 500

  /** The window passed to applyMovingAverage. */
  const SMOOTHING_WINDOW: nat := 5

  /** The metrics the recompute effect derives from a buffer of at least 10 readings. */
  predicate MetricsOf(readings: seq<Reading>, tremorIndex: int, frequency: real, severity: Severity)
  {
    var smoothed := MovingAverage(readings, SMOOTHING_WINDOW);
    && tremorIndex == CalculateTremorIndex(smoothed)
    && frequency == DominantFrequency(smoothed)
    && severity == ClassifyTremorSeverity(tremorIndex)
  }

  class SensorStream {
    const maxReadings: nat
    var readings: seq<Reading>
    var tremorIndex: int
    var frequency: real
    var severity: Severity

    /** The metrics are always in range and consistent with each other; once the buffer
        holds enough readings they are the metrics of the buffer; a positive cap bounds it. */
    ghost predicate Valid()
      reads this
    {
      && 0 <= tremorIndex <= MAX_TREMOR_INDEX
      && frequency >= 0.0
      && severity == ClassifyTremorSeverity(tremorIndex)
      && (|readings| >= MIN_ANALYSIS_READINGS ==> MetricsOf(readings, tremorIndex, frequency, severity))
      && (maxReadings > 0 ==> |readings| <= maxReadings)
    }

    /** useSensorStream(maxReadings): an empty buffer and zero metrics. */
    constructor(maxReadings: nat)
      ensures this.maxReadings == maxReadings
      ensures readings == [] && tremorIndex == 0 && frequency == 0.0 && severity == Bajo
      ensures Valid()
    {
      this.maxReadings := maxReadings;
      readings := [];
      tremorIndex := 0;
      frequency := 0.0;
      severity := Bajo;
    }

    /** useSensorStream() with the default cap. */
    constructor WithDefaultCap()
      ensures maxReadings == DEFAULT_MAX_READINGS
      ensures readings == [] && tremorIndex == 0 && frequency == 0.0 && severity == Bajo
      ensures Valid()
    {
      maxReadings := DEFAULT_MAX_READINGS;
      readings := [];
      tremorIndex := 0;
      frequency := 0.0;
      severity := Bajo;
    }

    /** The append effect for one accelerometer sample (None: no sample yet, nothing
        happens), followed by the recompute effect. `slice(-maxReadings)` with a cap of 0
        keeps everything. */
    method OnAccelerometerPacket(packet: Option<Packet>, sqrt: real -> real)
      modifies this
      requires Valid() && IsSqrt(sqrt)
      ensures Valid()
      ensures packet.None? ==>
        (readings == old(readings) && tremorIndex == old(tremorIndex)
         && frequency == old(frequency) && severity == old(severity))
      ensures packet.Some? ==>
        readings == AppendBounded(old(readings), ProcessAccelerometerData(packet.value, sqrt), maxReadings)
      ensures packet.Some? && |readings| < MIN_ANALYSIS_READINGS ==>
        tremorIndex == old(tremorIndex) && frequency == old(frequency) && severity == old(severity)
    {
      if packet.None? {
        return;
      }
      var reading := ProcessAccelerometerData(packet.value, sqrt);
      readings := AppendBounded(readings, reading, maxReadings);
      RecomputeMetrics();
    }

    /** The recompute effect: below 10 readings nothing changes; otherwise the metrics of
        the smoothed buffer. */
    method RecomputeMetrics()
      modifies this
      requires 0 <= tremorIndex <= MAX_TREMOR_INDEX && frequency >= 0.0
      requires severity == ClassifyTremorSeverity(tremorIndex)
      requires maxReadings > 0 ==> |readings| <= maxReadings
      ensures Valid()
      ensures readings == old(readings)
      ensures |readings| < MIN_ANALYSIS_READINGS ==>
        tremorIndex == old(tremorIndex) && frequency == old(frequency) && severity == old(severity)
    {
      if |readings| < MIN_ANALYSIS_READINGS {
        return;
      }
      var smoothed := ApplyMovingAverage(readings, SMOOTHING_WINDOW);
      var index := CalculateTremorIndex(smoothed);
      tremorIndex := index;
      var freq := CalculateDominantFrequency(smoothed);
      frequency := freq;
      severity := ClassifyTremorSeverity(index);
    }

    /** clearReadings. */
    method ClearReadings()
      modifies this
      ensures Valid()
      ensures readings == [] && tremorIndex == 0 && frequency == 0.0 && severity == Bajo
    {
      readings := [];
      tremorIndex := 0;
      frequency := 0.0;
      severity := Bajo;
    }

    /** getAnalysisSummary: null for an empty buffer, otherwise the summary of the raw
        (unsmoothed) buffer. */
    method GetAnalysisSummary() returns (summary: Option<AnalysisSummary>)
      ensures summary.None? <==> readings == []
      ensures summary.Some? ==>
        (summary.value == GenerateAnalysisSummary(readings)
         && summary.value.totalReadings == |readings|
         && summary.value.severity == ClassifyTremorSeverity(summary.value.tremorIndex))
    {
      if |readings| == 0 {
        return None;
      }
      summary := Some(GenerateAnalysisSummary(readings));
    }
  }

  /** Appending packet after packet keeps the latest maxReadings readings of the stream in
      order; with a cap of 0 it keeps them all. */
  lemma BufferIsLatestWindow(stream: seq<Reading>, maxReadings: nat)
    ensures AppendAllBounded([], stream, maxReadings) == SliceFromEnd(stream, maxReadings)
  {
    var empty: seq<Reading> := [];
    if maxReadings > 0 {
      AppendAllBoundedIsWindow(empty, stream, maxReadings);
      assert SliceFromEnd(empty, maxReadings) == empty;
      assert empty + stream == stream;
    } else {
      UncappedBufferKeepsAll(empty, stream);
      assert empty + stream == stream;
    }
  }

  lemma {:induction false} UncappedBufferKeepsAll(s: seq<Reading>, xs: seq<Reading>)
    ensures AppendAllBounded(s, xs, 0) == s + xs
    decreases |xs|
  {
    if xs != [] {
      UncappedBufferKeepsAll(s + [xs[0]], xs[1..]);
      assert s + [xs[0]] + xs[1..] == s + xs;
    }
  }

  /** A steady signal of ten or more readings (a device at rest) shows live index 0 and
      severity Bajo on this path. */
  lemma SteadySignalShowsNoTremor(readings: seq<Reading>, x: real, y: real, z: real, m: real,
                                  tremorIndex: int, frequency: real, severity: Severity)
    requires |readings| >= MIN_ANALYSIS_READINGS
    requires Steady(readings, X, x) && Steady(readings, Y, y) && Steady(readings, Z, z)
    requires Steady(readings, Magnitude, m)
    requires MetricsOf(readings, tremorIndex, frequency, severity)
    ensures tremorIndex == 0 && severity == Bajo
  {
    MovingAverageOfSteadySignal(readings, SMOOTHING_WINDOW, x, y, z, m);
    TremorIndexOfSteadySignal(readings, m);
  }
}
