/** SensorService (src/services/sensorService.ts): the tremor analysis engine over a
    sequence of readings. The expression-style members are functions; the members that
    build their result with `push` inside a loop are methods, each proved equal to the
    function that specifies it, and the properties are proved about those functions. */
module SensorService {
  import opened Numeric
  import opened Types

  /** src/utils/constants.ts:5-6. */
  const TREMOR_FREQUENCY_MIN: real := 4.0
  const TREMOR_FREQUENCY_MAX: real := 6.0

  /** Default threshold of detectTremorPeaks. */
  const PEAK_THRESHOLD: real := 0.5

  /** Readings needed before frequency and anomalies are estimated. */
  const MIN_ANALYSIS_READINGS: nat := 10

  /** Gain from standard deviation to tremor index, and the index ceiling. */
  const TREMOR_GAIN: real := 50.0
  const MAX_TREMOR_INDEX: nat := 100

  // ---------------------------------------------------------------------------------
  // Reading construction

  /** processAccelerometerData: a packet's fields, plus the Euclidean norm computed
      with the platform square root. */
  function ProcessAccelerometerData(packet: Packet, sqrt: real -> real): (r: Reading)
    requires IsSqrt(sqrt)
    ensures r.timestamp == packet.timestamp && r.x == packet.x && r.y == packet.y && r.z == packet.z
    ensures IsRoot(r.magnitude, Square(packet.x) + Square(packet.y) + Square(packet.z))
  {
    var sumOfSquares := Square(packet.x) + Square(packet.y) + Square(packet.z);
    Reading(packet.timestamp, packet.x, packet.y, packet.z, sqrt(sumOfSquares))
  }

  // ---------------------------------------------------------------------------------
  // Sums, means and the variance of the magnitude

  datatype Axis = X | Y | Z | Magnitude

  function Component(r: Reading, axis: Axis): real
  {
    match axis
    case X => r.x
    case Y => r.y
    case Z => r.z
    case Magnitude => r.magnitude
  }

  /** `readings.reduce((sum, r) => sum + r.<axis>, 0)`. */
  function SumOf(rs: seq<Reading>, axis: Axis): real
  {
    if rs == [] then 0.0 else SumOf(rs[..|rs| - 1], axis) + Component(rs[|rs| - 1], axis)
  }

  function MeanOf(rs: seq<Reading>, axis: Axis): real
    requires |rs| > 0
  {
    SumOf(rs, axis) / |rs| as real
  }

  /** Sum of the squared deviations of the magnitudes from `mean`. */
  function SquaredDeviations(rs: seq<Reading>, mean: real): (r: real)
    ensures r >= 0.0
  {
    if rs == [] then 0.0
    else SquaredDeviations(rs[..|rs| - 1], mean) + Square(rs[|rs| - 1].magnitude - mean)
  }

  /** Population variance of the magnitudes. */
  function Variance(rs: seq<Reading>): (v: real)
    requires |rs| > 0
    ensures v >= 0.0
  {
    SquaredDeviations(rs, MeanOf(rs, Magnitude)) / |rs| as real
  }

  /** Every reading carries the same value on `axis`. */
  ghost predicate Steady(rs: seq<Reading>, axis: Axis, c: real) {
    forall i :: 0 <= i < |rs| ==> Component(rs[i], axis) == c
  }

  lemma {:induction false} SumOfSteady(rs: seq<Reading>, axis: Axis, c: real)
    requires Steady(rs, axis, c)
    ensures SumOf(rs, axis) == |rs| as real * c
  {
    if rs != [] {
      SumOfSteady(rs[..|rs| - 1], axis, c);
    }
  }

  /** The mean of a steady signal is its value. */
  lemma MeanOfSteady(rs: seq<Reading>, axis: Axis, c: real)
    requires |rs| > 0 && Steady(rs, axis, c)
    ensures MeanOf(rs, axis) == c
  {
    SumOfSteady(rs, axis, c);
  }

  lemma {:induction false} SquaredDeviationsOfSteady(rs: seq<Reading>, c: real)
    requires Steady(rs, Magnitude, c)
    ensures SquaredDeviations(rs, c) == 0.0
  {
    if rs != [] {
      SquaredDeviationsOfSteady(rs[..|rs| - 1], c);
    }
  }

  /** A signal whose magnitude never changes has zero variance. */
  lemma VarianceOfSteady(rs: seq<Reading>, c: real)
    requires |rs| > 0 && Steady(rs, Magnitude, c)
    ensures Variance(rs) == 0.0
  {
    MeanOfSteady(rs, Magnitude, c);
    SquaredDeviationsOfSteady(rs, c);
  }

  // ---------------------------------------------------------------------------------
  // Tremor index

  /** The number of k in 1..n with k - 1/2 <= 50·σ, where σ² = variance. Counting these
      steps computes Math.round(min(100, 50·σ)) without taking a square root (see
      TremorIndexIsRoundedStdDev). */
  function RoundingSteps(variance: real, n: nat): (steps: nat)
    ensures steps <= n
  {
    if n == 0 then 0
    else RoundingSteps(variance, n - 1)
         + (if Square(n as real - 0.5) <= Square(TREMOR_GAIN) * variance then 1 else 0)
  }

  /** calculateTremorIndex: 0 for no readings; otherwise the population standard
      deviation of the magnitude times 50, clamped to [0, 100] and rounded. */
  function CalculateTremorIndex(readings: seq<Reading>): (index: int)
    ensures 0 <= index <= MAX_TREMOR_INDEX
    ensures readings == [] ==> index == 0
  {
    if readings == [] then 0 else RoundingSteps(Variance(readings), MAX_TREMOR_INDEX)
  }

  lemma {:induction false} RoundingStepsCount(variance: real, sd: real, n: nat)
    requires IsRoot(sd, variance)
    ensures RoundingSteps(variance, n) == MinInt(n, Round(TREMOR_GAIN * sd))
  {
    if n > 0 {
      RoundingStepsCount(variance, sd, n - 1);
      StepBelowScaledRoot(variance, sd, n);
      RoundReachesStep(TREMOR_GAIN * sd, n);
      var below := Square(n as real - 0.5) <= Square(TREMOR_GAIN) * variance;
      StepExtendsMin(RoundingSteps(variance, n - 1), below, n, Round(TREMOR_GAIN * sd));
    }
  }

  /** Counting step n extends min(n - 1, r) to min(n, r) exactly when r reaches n. */
  lemma StepExtendsMin(prev: int, counted: bool, n: int, r: int)
    requires prev == MinInt(n - 1, r)
    requires counted <==> r >= n
    ensures prev + (if counted then 1 else 0) == MinInt(n, r)
  {
  }

  /** Round(y) reaches n exactly when y reaches n - 1/2. */
  lemma RoundReachesStep(y: real, n: int)
    ensures Round(y) >= n <==> n as real - 0.5 <= y
  {
    var r := Round(y);
    if n as real - 0.5 <= y {
      assert (n - 1) as real < r as real;
    }
  }

  /** Step `n` is counted exactly when n - 1/2 <= 50·σ. */
  lemma StepBelowScaledRoot(variance: real, sd: real, n: nat)
    requires IsRoot(sd, variance) && n > 0
    ensures Square(n as real - 0.5) <= Square(TREMOR_GAIN) * variance <==> n as real - 0.5 <= TREMOR_GAIN * sd
  {
    var y := TREMOR_GAIN * sd;
    assert Square(TREMOR_GAIN) * variance == Square(y) by {
      assert variance == sd * sd;
      assert Square(y) == (TREMOR_GAIN * sd) * (TREMOR_GAIN * sd);
    }
    SquareMonotone(n as real - 0.5, y);
  }

  /** The index computed without a square root is the source's formula
      Math.round(Math.min(100, Math.max(0, stdDev * 50))) for the exact standard
      deviation `sd`. */
  lemma TremorIndexIsRoundedStdDev(readings: seq<Reading>, sd: real)
    requires |readings| > 0 && IsRoot(sd, Variance(readings))
    ensures CalculateTremorIndex(readings) == Round(Clamp(sd * TREMOR_GAIN, 0.0, 100.0))
  {
    RoundingStepsCount(Variance(readings), sd, MAX_TREMOR_INDEX);
    var y := sd * TREMOR_GAIN;
    if y > 100.0 {
      assert Round(y) >= 100;
    }
  }

  /** Equal magnitudes give index 0. */
  lemma {:induction false} TremorIndexOfSteadySignal(readings: seq<Reading>, c: real)
    requires |readings| > 0 && Steady(readings, Magnitude, c)
    ensures CalculateTremorIndex(readings) == 0
  {
    VarianceOfSteady(readings, c);
    RoundingStepsCount(0.0, 0.0, MAX_TREMOR_INDEX);
  }

  // ---------------------------------------------------------------------------------
  // Severity and the Parkinsonian frequency band

  /** classifyTremorSeverity. */
  function ClassifyTremorSeverity(tremorIndex: int): (severity: Severity)
    ensures severity == Alto <==> tremorIndex > 66
    ensures severity == Moderado <==> 33 < tremorIndex <= 66
    ensures severity == Bajo <==> tremorIndex <= 33
  {
    if tremorIndex > 66 then Alto
    else if tremorIndex > 33 then Moderado
    else Bajo
  }

  /** A higher index never gets a milder label. */
  lemma ClassificationIsMonotone(i: int, j: int)
    requires i <= j
    ensures ClassifyTremorSeverity(i).Rank() <= ClassifyTremorSeverity(j).Rank()
  {
  }

  /** isParkinsonTremorRange: 4 Hz to 6 Hz, both ends included. */
  function IsParkinsonTremorRange(frequency: real): (inRange: bool)
    ensures inRange <==> TREMOR_FREQUENCY_MIN <= frequency <= TREMOR_FREQUENCY_MAX
  {
    frequency >= TREMOR_FREQUENCY_MIN && frequency <= TREMOR_FREQUENCY_MAX
  }

  // ---------------------------------------------------------------------------------
  // Peak detection

  /** Reading `i` is a local maximum of the magnitude above `threshold`. */
  predicate IsPeak(rs: seq<Reading>, i: int, threshold: real)
    requires 1 <= i < |rs| - 1
  {
    var current := rs[i].magnitude;
    current > rs[i - 1].magnitude && current > rs[i + 1].magnitude && current > threshold
  }

  /** The peaks among the indices 1 .. n-1, in increasing order. */
  function PeaksBelow(rs: seq<Reading>, threshold: real, n: nat): seq<nat>
    requires n < |rs|
  {
    if n <= 1 then []
    else PeaksBelow(rs, threshold, n - 1) + (if IsPeak(rs, n - 1, threshold) then [n - 1] else [])
  }

  /** The peaks below `n` are increasing indices in [1, n), and an index is listed exactly
      when it is a peak. */
  lemma {:induction false} PeaksBelowSpec(rs: seq<Reading>, threshold: real, n: nat)
    requires n < |rs|
    ensures var peaks := PeaksBelow(rs, threshold, n);
      && (forall k :: 0 <= k < |peaks| ==> 1 <= peaks[k] < n)
      && (forall k, l :: 0 <= k < l < |peaks| ==> peaks[k] < peaks[l])
      && (forall i :: 1 <= i < n ==> (i in peaks <==> IsPeak(rs, i, threshold)))
  {
    if n > 1 {
      PeaksBelowSpec(rs, threshold, n - 1);
    }
  }

  /** What detectTremorPeaks returns: exactly the interior indices that are peaks, in
      increasing order; the first and last readings are never peaks. */
  function TremorPeaks(rs: seq<Reading>, threshold: real): (peaks: seq<nat>)
    ensures forall k :: 0 <= k < |peaks| ==> 1 <= peaks[k] <= |rs| - 2
    ensures forall k, l :: 0 <= k < l < |peaks| ==> peaks[k] < peaks[l]
    ensures forall i :: 1 <= i <= |rs| - 2 ==> (i in peaks <==> IsPeak(rs, i, threshold))
    ensures |rs| < 3 ==> peaks == []
  {
    if |rs| < 3 then []
    else
      PeaksBelowSpec(rs, threshold, |rs| - 1);
      PeaksBelow(rs, threshold, |rs| - 1)
  }

  /** detectTremorPeaks. */
  method DetectTremorPeaks(readings: seq<Reading>, threshold: real) returns (peaks: seq<nat>)
    ensures peaks == TremorPeaks(readings, threshold)
  {
    peaks := [];
    if |readings| < 3 {
      return;
    }
    var i := 1;
    while i < |readings| - 1
      invariant 1 <= i <= |readings| - 1
      invariant peaks == PeaksBelow(readings, threshold, i)
    {
      var current := readings[i].magnitude;
      var prev := readings[i - 1].magnitude;
      var next := readings[i + 1].magnitude;
      if current > prev && current > next && current > threshold {
        peaks := peaks + [i];
      }
      i := i + 1;
    }
  }

  // ---------------------------------------------------------------------------------
  // Dominant frequency

  /** Seconds between the readings at indices `a` and `b`. */
  function TimeDiff(rs: seq<Reading>, a: nat, b: nat): real
    requires a < |rs| && b < |rs|
  {
    (rs[b].timestamp - rs[a].timestamp) as real / 1000.0
  }

  /** The positive gaps between consecutive peaks among the first `n` peaks. */
  function PeakIntervals(rs: seq<Reading>, peaks: seq<nat>, n: nat): (intervals: seq<real>)
    requires n <= |peaks|
    requires forall k :: 0 <= k < |peaks| ==> peaks[k] < |rs|
    ensures |intervals| <= n
    ensures n >= 1 ==> |intervals| <= n - 1
    ensures forall j :: 0 <= j < |intervals| ==> intervals[j] > 0.0
  {
    if n <= 1 then []
    else
      var timeDiff := TimeDiff(rs, peaks[n - 2], peaks[n - 1]);
      PeakIntervals(rs, peaks, n - 1) + (if timeDiff > 0.0 then [timeDiff] else [])
  }

  /** The inter-peak intervals calculateDominantFrequency averages. */
  function FrequencyIntervals(rs: seq<Reading>): seq<real>
  {
    var peaks := TremorPeaks(rs, PEAK_THRESHOLD);
    PeakIntervals(rs, peaks, |peaks|)
  }

  /** The mean of a non-empty sequence of positive intervals. */
  function MeanInterval(intervals: seq<real>): (avg: real)
    requires |intervals| > 0
    requires forall j :: 0 <= j < |intervals| ==> intervals[j] > 0.0
    ensures avg > 0.0
  {
    SumOfPositives(intervals);
    Sum(intervals) / |intervals| as real
  }

  /** What calculateDominantFrequency returns: the reciprocal of the mean inter-peak
      interval, or 0 when there are too few readings, too few peaks or no positive
      interval. */
  function DominantFrequency(rs: seq<Reading>): (frequency: real)
    ensures frequency >= 0.0
  {
    if |rs| < MIN_ANALYSIS_READINGS then 0.0
    else if |TremorPeaks(rs, PEAK_THRESHOLD)| < 2 then 0.0
    else
      var intervals := FrequencyIntervals(rs);
      if |intervals| == 0 then 0.0 else 1.0 / MeanInterval(intervals)
  }

  /** The estimate is 0 exactly in the three insufficient-data cases, and positive
      otherwise. */
  lemma DominantFrequencyZeroCases(rs: seq<Reading>)
    ensures DominantFrequency(rs) == 0.0 <==>
      || |rs| < MIN_ANALYSIS_READINGS
      || |TremorPeaks(rs, PEAK_THRESHOLD)| < 2
      || |FrequencyIntervals(rs)| == 0
  {
    var intervals := FrequencyIntervals(rs);
    if |rs| >= MIN_ANALYSIS_READINGS && |TremorPeaks(rs, PEAK_THRESHOLD)| >= 2 && |intervals| > 0 {
      var avg := MeanInterval(intervals);
      assert 1.0 / avg > 0.0;
    }
  }

  /** A positive frequency lies in the Parkinsonian band exactly when the mean inter-peak
      interval lies between 1/6 s and 1/4 s. */
  lemma ParkinsonBandAsInterval(rs: seq<Reading>)
    requires |rs| >= MIN_ANALYSIS_READINGS && |TremorPeaks(rs, PEAK_THRESHOLD)| >= 2
    requires |FrequencyIntervals(rs)| > 0
    ensures var intervals := FrequencyIntervals(rs);
      var avg := Sum(intervals) / |intervals| as real;
      IsParkinsonTremorRange(DominantFrequency(rs)) <==> 1.0 / 6.0 <= avg <= 1.0 / 4.0
  {
    var intervals := FrequencyIntervals(rs);
    var avg := MeanInterval(intervals);
    assert DominantFrequency(rs) == 1.0 / avg;
    ReciprocalInBand(avg);
  }

  /** 4 <= 1/a <= 6 exactly when 1/6 <= a <= 1/4, for a > 0. */
  lemma ReciprocalInBand(a: real)
    requires a > 0.0
    ensures IsParkinsonTremorRange(1.0 / a) <==> 1.0 / 6.0 <= a <= 1.0 / 4.0
  {
    var f := 1.0 / a;
    assert f * a == 1.0;
    if 4.0 <= f {
      assert 4.0 * a <= f * a;
    }
    if a <= 1.0 / 4.0 {
      assert f * a <= f * (1.0 / 4.0);
    }
    if f <= 6.0 {
      assert f * a <= 6.0 * a;
    }
    if 1.0 / 6.0 <= a {
      assert f * (1.0 / 6.0) <= f * a;
    }
  }

  /** The interval loop of calculateDominantFrequency, run once two peaks are known:
      the positive gaps between consecutive peaks, in seconds. */
  method CollectIntervals(readings: seq<Reading>, peaks: seq<nat>) returns (intervals: seq<real>)
    requires |peaks| >= 2
    requires forall k :: 0 <= k < |peaks| ==> peaks[k] < |readings|
    ensures intervals == PeakIntervals(readings, peaks, |peaks|)
  {
    intervals := [];
    var i := 1;
    while i < |peaks|
      invariant 1 <= i <= |peaks|
      invariant intervals == PeakIntervals(readings, peaks, i)
    {
      var timeDiff := TimeDiff(readings, peaks[i - 1], peaks[i]);
      if timeDiff > 0.0 {
        intervals := intervals + [timeDiff];
      }
      i := i + 1;
    }
  }

  /** calculateDominantFrequency. */
  method CalculateDominantFrequency(readings: seq<Reading>) returns (frequency: real)
    ensures frequency == DominantFrequency(readings)
  {
    if |readings| < MIN_ANALYSIS_READINGS {
      return 0.0;
    }
    var peaks := DetectTremorPeaks(readings, PEAK_THRESHOLD);
    if |peaks| < 2 {
      return 0.0;
    }
    var intervals := CollectIntervals(readings, peaks);
    if |intervals| == 0 {
      return 0.0;
    }
    var avgInterval := MeanInterval(intervals);
    frequency := 1.0 / avgInterval;
  }

  // ---------------------------------------------------------------------------------
  // Moving average

  /** The window [start, end) averaged for output point `i`:
      start = max(0, i - floor(w/2)), end = min(n, i + ceil(w/2)). It always contains `i`. */
  function WindowStart(i: nat, windowSize: nat): (start: nat)
  {
    MaxInt(0, i - windowSize / 2)
  }

  function WindowEnd(n: nat, i: nat, windowSize: nat): (end: nat)
  {
    MinInt(n, i + (windowSize + 1) / 2)
  }

  lemma WindowContainsPoint(n: nat, i: nat, windowSize: nat)
    requires i < n && windowSize >= 1
    ensures WindowStart(i, windowSize) <= i < WindowEnd(n, i, windowSize) <= n
  {
  }

  /** Output point `i`: the input's timestamp, and the mean of each axis over the window. */
  function SmoothedAt(rs: seq<Reading>, i: nat, windowSize: nat): Reading
    requires i < |rs| && windowSize >= 1
  {
    WindowContainsPoint(|rs|, i, windowSize);
    var window := rs[WindowStart(i, windowSize)..WindowEnd(|rs|, i, windowSize)];
    Reading(rs[i].timestamp, MeanOf(window, X), MeanOf(window, Y), MeanOf(window, Z),
            MeanOf(window, Magnitude))
  }

  /** What applyMovingAverage returns. */
  function MovingAverage(rs: seq<Reading>, windowSize: nat): (smoothed: seq<Reading>)
    requires windowSize >= 1
    ensures |smoothed| == |rs|
    ensures forall i :: 0 <= i < |rs| ==> smoothed[i].timestamp == rs[i].timestamp
  {
    if |rs| < windowSize then rs
    else seq(|rs|, i requires 0 <= i < |rs| => SmoothedAt(rs, i, windowSize))
  }

  /** A signal too short for the window passes through unchanged; otherwise every point
      is the average of a non-empty window around it. */
  lemma MovingAverageShape(rs: seq<Reading>, windowSize: nat)
    requires windowSize >= 1
    ensures |rs| < windowSize ==> MovingAverage(rs, windowSize) == rs
    ensures |rs| >= windowSize ==> forall i :: 0 <= i < |rs| ==>
      && WindowStart(i, windowSize) <= i < WindowEnd(|rs|, i, windowSize) <= |rs|
      && MovingAverage(rs, windowSize)[i] == SmoothedAt(rs, i, windowSize)
  {
    forall i | 0 <= i < |rs| {
      WindowContainsPoint(|rs|, i, windowSize);
    }
  }

  /** Smoothing leaves a steady signal as it is. */
  lemma MovingAverageOfSteadySignal(rs: seq<Reading>, windowSize: nat, x: real, y: real, z: real, m: real)
    requires windowSize >= 1
    requires Steady(rs, X, x) && Steady(rs, Y, y) && Steady(rs, Z, z) && Steady(rs, Magnitude, m)
    ensures MovingAverage(rs, windowSize) == rs
  {
    if |rs| >= windowSize {
      forall i | 0 <= i < |rs|
        ensures MovingAverage(rs, windowSize)[i] == rs[i]
      {
        WindowContainsPoint(|rs|, i, windowSize);
        var window := rs[WindowStart(i, windowSize)..WindowEnd(|rs|, i, windowSize)];
        MeanOfSteady(window, X, x);
        MeanOfSteady(window, Y, y);
        MeanOfSteady(window, Z, z);
        MeanOfSteady(window, Magnitude, m);
        assert Component(rs[i], X) == x && Component(rs[i], Y) == y;
        assert Component(rs[i], Z) == z && Component(rs[i], Magnitude) == m;
      }
    }
  }

  /** applyMovingAverage. */
  method ApplyMovingAverage(readings: seq<Reading>, windowSize: nat) returns (smoothed: seq<Reading>)
    requires windowSize >= 1
    ensures smoothed == MovingAverage(readings, windowSize)
  {
    if |readings| < windowSize {
      return readings;
    }
    smoothed := [];
    var i := 0;
    while i < |readings|
      invariant 0 <= i <= |readings|
      invariant |smoothed| == i
      invariant forall k :: 0 <= k < i ==> smoothed[k] == SmoothedAt(readings, k, windowSize)
    {
      var start := MaxInt(0, i - windowSize / 2);
      var end := MinInt(|readings|, i + (windowSize + 1) / 2);
      WindowContainsPoint(|readings|, i, windowSize);
      var window := readings[start..end];
      var meanX := MeanOf(window, X);
      var meanY := MeanOf(window, Y);
      var meanZ := MeanOf(window, Z);
      var meanMag := MeanOf(window, Magnitude);
      smoothed := smoothed + [Reading(readings[i].timestamp, meanX, meanY, meanZ, meanMag)];
      i := i + 1;
    }
  }

  // ---------------------------------------------------------------------------------
  // Anomaly detection

  /** |m - mean| > 3·σ, compared on squares: σ² = variance. */
  predicate IsAnomaly(m: real, mean: real, variance: real) {
    Square(m - mean) > 9.0 * variance
  }

  /** The squared comparison is the source's |m - mean| > 3 * stdDev. */
  lemma AnomalyIsBeyondThreeSigma(m: real, mean: real, variance: real, sd: real)
    requires IsRoot(sd, variance)
    ensures IsAnomaly(m, mean, variance) <==> Abs(m - mean) > 3.0 * sd
  {
    assert Square(Abs(m - mean)) == Square(m - mean);
    assert Square(3.0 * sd) == 9.0 * variance;
    SquareStrictlyMonotone(3.0 * sd, Abs(m - mean));
  }

  /** The anomalous indices below `n`, in increasing order. */
  function AnomaliesBelow(rs: seq<Reading>, mean: real, variance: real, n: nat): seq<nat>
    requires n <= |rs|
  {
    if n == 0 then []
    else
      AnomaliesBelow(rs, mean, variance, n - 1)
      + (if IsAnomaly(rs[n - 1].magnitude, mean, variance) then [n - 1] else [])
  }

  /** The anomalies below `n` are increasing indices in [0, n), and an index is listed
      exactly when its magnitude is anomalous. */
  lemma {:induction false} AnomaliesBelowSpec(rs: seq<Reading>, mean: real, variance: real, n: nat)
    requires n <= |rs|
    ensures var anomalies := AnomaliesBelow(rs, mean, variance, n);
      && (forall k :: 0 <= k < |anomalies| ==> anomalies[k] < n)
      && (forall k, l :: 0 <= k < l < |anomalies| ==> anomalies[k] < anomalies[l])
      && (forall i :: 0 <= i < n ==> (i in anomalies <==> IsAnomaly(rs[i].magnitude, mean, variance)))
  {
    if n > 0 {
      AnomaliesBelowSpec(rs, mean, variance, n - 1);
    }
  }

  /** What detectAnomalies returns: no anomalies under 10 readings; otherwise exactly the
      indices whose magnitude is more than three standard deviations from the mean, in
      increasing order. */
  function Anomalies(rs: seq<Reading>): (anomalies: seq<nat>)
    ensures |rs| < MIN_ANALYSIS_READINGS ==> anomalies == []
    ensures forall k :: 0 <= k < |anomalies| ==> anomalies[k] < |rs|
    ensures forall k, l :: 0 <= k < l < |anomalies| ==> anomalies[k] < anomalies[l]
    ensures |rs| >= MIN_ANALYSIS_READINGS ==> forall i :: 0 <= i < |rs| ==>
      (i in anomalies <==> IsAnomaly(rs[i].magnitude, MeanOf(rs, Magnitude), Variance(rs)))
  {
    if |rs| < MIN_ANALYSIS_READINGS then []
    else
      AnomaliesBelowSpec(rs, MeanOf(rs, Magnitude), Variance(rs), |rs|);
      AnomaliesBelow(rs, MeanOf(rs, Magnitude), Variance(rs), |rs|)
  }

  /** detectAnomalies. */
  method DetectAnomalies(readings: seq<Reading>) returns (anomalies: seq<nat>)
    ensures anomalies == Anomalies(readings)
  {
    if |readings| < MIN_ANALYSIS_READINGS {
      return [];
    }
    var mean := MeanOf(readings, Magnitude);
    var variance := Variance(readings);
    anomalies := CollectAnomalies(readings, mean, variance);
  }

  /** The forEach of detectAnomalies: every index whose magnitude is anomalous. */
  method CollectAnomalies(readings: seq<Reading>, mean: real, variance: real) returns (anomalies: seq<nat>)
    ensures anomalies == AnomaliesBelow(readings, mean, variance, |readings|)
  {
    anomalies := [];
    var index := 0;
    while index < |readings|
      invariant 0 <= index <= |readings|
      invariant anomalies == AnomaliesBelow(readings, mean, variance, index)
    {
      if IsAnomaly(readings[index].magnitude, mean, variance) {
        anomalies := anomalies + [index];
      }
      index := index + 1;
    }
  }

  // ---------------------------------------------------------------------------------
  // Analysis summary

  /** The object generateAnalysisSummary returns. `meanMagnitude` is the source's
      `avgMagnitude` field; it is None where the source computes 0/0 = NaN, for an empty
      sequence. */
  datatype AnalysisSummary = AnalysisSummary(
    tremorIndex: int,
    frequency: real,
    severity: Severity,
    peakCount: nat,
    anomalyCount: nat,
    isParkinsonRange: bool,
    totalReadings: nat,
    meanMagnitude: Option<real>)

  /** parseFloat(f.toFixed(2)) for a non-negative f: the nearest multiple of 0.01, halves
      rounded up. */
  function RoundToHundredths(f: real): (r: real)
    ensures r - 0.005 <= f < r + 0.005
    ensures (r * 100.0).Floor as real == r * 100.0
    ensures f >= 0.0 ==> r >= 0.0
  {
    Round(f * 100.0) as real / 100.0
  }

  /** Only one whole number of hundredths lies within half a hundredth of f (ties going
      up), so RoundToHundredths is the value toFixed(2) prints. */
  lemma RoundToHundredthsIsUnique(f: real, q: real)
    requires (q * 100.0).Floor as real == q * 100.0
    requires q - 0.005 <= f < q + 0.005
    ensures q == RoundToHundredths(f)
  {
    var r := RoundToHundredths(f);
    var k, m := (q * 100.0).Floor, (r * 100.0).Floor;
    assert k as real - 0.5 <= f * 100.0 < k as real + 0.5;
    assert m as real - 0.5 <= f * 100.0 < m as real + 0.5;
    assert k == m;
  }

  /** Rounding to hundredths keeps a value inside the band [4, 6]. */
  lemma RoundingKeepsBand(f: real)
    ensures IsParkinsonTremorRange(f) ==> IsParkinsonTremorRange(RoundToHundredths(f))
  {
    if IsParkinsonTremorRange(f) {
      var k := Round(f * 100.0);
      assert 400.0 <= f * 100.0 <= 600.0;
      assert 400 <= k <= 600;
    }
  }

  /** generateAnalysisSummary: every field derived from the same sequence. The Parkinson
      flag is decided on the raw frequency while the reported frequency is rounded, so the
      flag implies the band for the reported value but not conversely (a raw 3.996 Hz is
      reported as 4.00 with the flag false). */
  function GenerateAnalysisSummary(readings: seq<Reading>): (summary: AnalysisSummary)
    ensures summary.tremorIndex == CalculateTremorIndex(readings)
    ensures summary.frequency == RoundToHundredths(DominantFrequency(readings))
    ensures summary.peakCount == |TremorPeaks(readings, PEAK_THRESHOLD)|
    ensures summary.anomalyCount == |Anomalies(readings)|
    ensures summary.isParkinsonRange == IsParkinsonTremorRange(DominantFrequency(readings))
    ensures readings != [] ==> summary.meanMagnitude == Some(MeanOf(readings, Magnitude))
    ensures 0 <= summary.tremorIndex <= MAX_TREMOR_INDEX
    ensures summary.severity == ClassifyTremorSeverity(summary.tremorIndex)
    ensures summary.frequency >= 0.0
    ensures summary.isParkinsonRange ==>
      TREMOR_FREQUENCY_MIN <= summary.frequency <= TREMOR_FREQUENCY_MAX
    ensures summary.peakCount + 2 <= |readings| || summary.peakCount == 0
    ensures summary.anomalyCount <= |readings|
    ensures summary.totalReadings == |readings|
    ensures summary.meanMagnitude.None? <==> readings == []
  {
    var tremorIndex := CalculateTremorIndex(readings);
    var frequency := DominantFrequency(readings);
    var severity := ClassifyTremorSeverity(tremorIndex);
    var peaks := TremorPeaks(readings, PEAK_THRESHOLD);
    var anomalies := Anomalies(readings);
    var isParkinson := IsParkinsonTremorRange(frequency);
    PeakCountBound(readings, PEAK_THRESHOLD);
    AnomalyCountBound(readings);
    RoundingKeepsBand(frequency);
    var rounded := RoundToHundredths(frequency);
    AnalysisSummary(
      tremorIndex,
      rounded,
      severity,
      |peaks|,
      |anomalies|,
      isParkinson,
      |readings|,
      if readings == [] then None else Some(MeanOf(readings, Magnitude)))
  }

  /** Strictly increasing indices drawn from [lo, hi) number at most hi - lo. */
  lemma {:induction false} IncreasingIndicesBound(s: seq<nat>, lo: nat, hi: nat)
    requires forall k :: 0 <= k < |s| ==> lo <= s[k] < hi
    requires forall k, l :: 0 <= k < l < |s| ==> s[k] < s[l]
    ensures |s| <= hi - lo || |s| == 0
  {
    if |s| > 0 {
      var last := s[|s| - 1];
      IncreasingIndicesBound(s[..|s| - 1], lo, last);
    }
  }

  lemma PeakCountBound(rs: seq<Reading>, threshold: real)
    ensures |TremorPeaks(rs, threshold)| + 2 <= |rs| || |TremorPeaks(rs, threshold)| == 0
  {
    if |rs| >= 3 {
      IncreasingIndicesBound(TremorPeaks(rs, threshold), 1, |rs| - 1);
    }
  }

  lemma AnomalyCountBound(rs: seq<Reading>)
    ensures |Anomalies(rs)| <= |rs|
  {
    IncreasingIndicesBound(Anomalies(rs), 0, |rs|);
  }
}
