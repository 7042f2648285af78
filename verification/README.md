# Tremor monitor core in Dafny

A model of the non-UI core of a mobile app for Parkinson's tremor monitoring. A watch
streams accelerometer packets to the phone. The app turns each packet into a reading and
derives a tremor index (0–100), a severity class (Bajo / Moderado / Alto), a dominant
frequency, tremor peaks and anomalies. It records sessions of readings, stores them, and
summarises them. The model covers:

- **Analysis engine** (`sensor_service.dfy`, module `SensorService`). Pure functions over
  sequences of readings: magnitude, tremor index from the standard deviation of the
  magnitude, peak detection, dominant frequency from peak spacing, the 4–6 Hz Parkinson
  band, the moving-average smoother, three-sigma anomalies and the analysis summary. Every
  loop in the source becomes a `method` with a `while` loop proved equal to the function
  that specifies it. The properties are proved about those functions.
- **Storage** (`storage_service.dfy`, module `StorageService`). The two storage keys, the
  session collection and the current-session slot, are the fields of a `SessionStore`
  object. Each store operation is a method that states the new contents of both keys. A
  stored blob that cannot be parsed is the `Unreadable` entry.
- **Statistics** (`pdf_service.dfy`, module `PdfService`). `calculateStatistics` over the
  session history.
- **Sync bookkeeping** (`sync_service.dfy`, module `SyncService`). The pending-id list
  that is kept in the current-session slot. It covers marking, listing, transfer with
  down-sampling to 500 readings, un-marking and cleanup.
- **The recording hook** (`tremor_session_hook.dfy`, module `TremorSessionHook`). The
  start / add / pause / resume / stop life cycle, as a `TremorSession` object whose class
  invariant ties the live index to the buffer.
- **The live-metrics hook** (`sensor_stream_hook.dfy`, module `SensorStreamHook`). A
  capped buffer of packets and the metrics recomputed from its smoothed copy, as a
  `SensorStream` object.

Shared vocabulary lives in `types.dfy`, `numeric.dfy` (rounding, clamping, sums) and
`seqs.dfy` (filter, subsequence, "keep the last n").

Numbers are modelled as mathematical reals and integers. `Math.round(x)` is
`floor(x + 0.5)`. `Math.sqrt` is a function parameter that must return the non-negative
root (`IsSqrt`).

The tremor index is computed without a square root. `round(50·σ)` is the number of
half-integer thresholds `n − 0.5` with `(n − 0.5)² ≤ 2500·variance`, capped at 100.
`TremorIndexIsRoundedStdDev` proves this equals `round(clamp(50·σ, 0, 100))` for the
actual root σ. `Date.now()` becomes an argument of the methods that read the clock.
Storage write failures are a boolean argument (`writeFails`).

The model follows the code as written, including these behaviours that its names and comments do not suggest:

- The live index of the recording hook is ten times the *mean* magnitude, clamped and
  rounded. It is not the analysis engine's standard-deviation index.
  `RestingDeviceLiveIndex` shows the consequence: a device at rest reads 98 (Alto) live
  but 0 (Bajo) in the engine.
- `addReading` appends whether or not a session is active.
- The sync bookkeeping writes its pending list into the same slot that pausing uses. So
  marking sessions for sync between a pause and a resume makes the paused session
  impossible to resume (`PauseSyncResume`).
- `TremorSession.id` is declared as a number, but every producer and consumer uses a
  string (`session_<ms>`). The model uses strings.
- A filter bound of 0 counts as "no bound", because the filter only applies truthy bounds
  (`ZeroBoundsAreIgnored`).
- `useSensorStream(0)` keeps every reading, since `slice(-0)` is `slice(0)`.
- Saving over an unreadable collection replaces it with a one-session collection, because
  `getAllSessions` soft-fails to `[]`.

## Model

| member | source | states |
|---|---|---|
| SensorService.ProcessAccelerometerData | src/services/sensorService.ts:8-22 | the reading copies its packet's timestamp and axes, and its magnitude is the non-negative root of x²+y²+z² |
| SensorService.Variance | src/services/sensorService.ts:34-36 | the population variance of the magnitudes is never negative |
| SensorService.CalculateTremorIndex | src/services/sensorService.ts:27-44 | the index always lies in [0, 100] and is 0 for no readings |
| SensorService.RoundingStepsCount | src/services/sensorService.ts:37-43 | counting half-integer thresholds below 2500·variance gives min(n, round(50·σ)) for the root σ of the variance |
| SensorService.StepBelowScaledRoot | src/services/sensorService.ts:37-41 | comparing squares against 2500·variance is the same as comparing against 50·σ |
| SensorService.TremorIndexIsRoundedStdDev | src/services/sensorService.ts:27-44 | the index equals round(clamp(50·σ, 0, 100)) where σ is the standard deviation of the magnitudes |
| SensorService.MeanOfSteady | src/services/sensorService.ts:31 | the mean magnitude of a constant signal is that constant |
| SensorService.VarianceOfSteady | src/services/sensorService.ts:34-36 | a constant magnitude has variance 0 |
| SensorService.TremorIndexOfSteadySignal | src/services/sensorService.ts:27-44 | a signal with constant magnitude has tremor index 0 |
| SensorService.ClassifyTremorSeverity | src/services/sensorService.ts:104-108 | Alto iff index > 66, Moderado iff 33 < index ≤ 66, Bajo iff index ≤ 33 |
| SensorService.ClassificationIsMonotone | src/services/sensorService.ts:104-108 | a larger index never gets a milder severity |
| SensorService.IsParkinsonTremorRange | src/services/sensorService.ts:97-99 | true iff 4 ≤ frequency ≤ 6 (constants TREMOR_FREQUENCY_MIN/MAX) |
| SensorService.TremorPeaks | src/services/sensorService.ts:49-64 | the peaks are strictly increasing interior indices, and an interior index is listed iff its magnitude is above the threshold and strictly above both neighbours; fewer than 3 readings give none |
| SensorService.PeaksBelowSpec | src/services/sensorService.ts:52-61 | the peaks found below index n are strictly increasing indices in [1, n), and an index is among them iff it is a peak |
| SensorService.DetectTremorPeaks | src/services/sensorService.ts:49-64 | the loop returns exactly TremorPeaks |
| SensorService.PeakCountBound | src/services/sensorService.ts:49-64 | there are either no peaks or at most n − 2 of them |
| SensorService.PeakIntervals | src/services/sensorService.ts:76-85 | at most one interval per consecutive peak pair, and every kept interval is positive |
| SensorService.DominantFrequency | src/services/sensorService.ts:69-92 | the dominant frequency is never negative |
| SensorService.MeanInterval | src/services/sensorService.ts:88 | the mean of positive peak-to-peak intervals is positive, so its reciprocal exists |
| SensorService.CollectIntervals | src/services/sensorService.ts:76-85 | the loop over consecutive peak pairs collects exactly the positive intervals in order |
| SensorService.DominantFrequencyZeroCases | src/services/sensorService.ts:69-92 | the frequency is 0 exactly when there are fewer than 10 readings, fewer than 2 peaks or no positive interval |
| SensorService.ParkinsonBandAsInterval | src/services/sensorService.ts:86-99 | the frequency is in the 4–6 Hz band iff the mean peak interval is between 1/6 s and 1/4 s |
| SensorService.ReciprocalInBand | src/services/sensorService.ts:87-99 | 1/a lies in [4, 6] iff a lies in [1/6, 1/4] |
| SensorService.CalculateDominantFrequency | src/services/sensorService.ts:69-92 | the loop over peak pairs returns exactly DominantFrequency |
| SensorService.WindowContainsPoint | src/services/sensorService.ts:119-121 | the window [max(0, i − ⌊w/2⌋), min(n, i + ⌈w/2⌉)) lies inside the signal and contains i |
| SensorService.MovingAverage | src/services/sensorService.ts:113-138 | smoothing keeps the length and every timestamp |
| SensorService.MovingAverageShape | src/services/sensorService.ts:113-138 | a signal shorter than the window is returned unchanged, otherwise each point is the average of its clipped window |
| SensorService.MovingAverageOfSteadySignal | src/services/sensorService.ts:113-138 | smoothing a constant signal leaves it unchanged |
| SensorService.ApplyMovingAverage | src/services/sensorService.ts:113-138 | the loop returns exactly MovingAverage |
| SensorService.AnomalyIsBeyondThreeSigma | src/services/sensorService.ts:149-157 | the squared test used by the model is the same as \|m − mean\| > 3σ |
| SensorService.Anomalies | src/services/sensorService.ts:143-161 | fewer than 10 readings give none; otherwise the strictly increasing indices listed are exactly those whose magnitude is more than 3σ from the mean |
| SensorService.AnomaliesBelowSpec | src/services/sensorService.ts:154-158 | the anomalies found below index n are strictly increasing indices below n, and an index is among them iff its magnitude is more than 3σ from the mean |
| SensorService.CollectAnomalies | src/services/sensorService.ts:154-158 | the forEach over the readings returns exactly the anomalies for the given mean and variance |
| SensorService.DetectAnomalies | src/services/sensorService.ts:143-161 | the loop returns exactly Anomalies |
| SensorService.AnomalyCountBound | src/services/sensorService.ts:143-161 | there are never more anomalies than readings |
| SensorService.RoundToHundredths | src/services/sensorService.ts:176 | the result is a whole number of hundredths within half a hundredth of the frequency (so it is the value `parseFloat(f.toFixed(2))` gives for f >= 0), and it is non-negative for a non-negative frequency |
| SensorService.RoundToHundredthsIsUnique | src/services/sensorService.ts:176 | any whole number of hundredths within half a hundredth of f (ties up) is RoundToHundredths(f): the two-decimal rounding is unique |
| SensorService.RoundingKeepsBand | src/services/sensorService.ts:97-99 | rounding an in-band frequency to hundredths keeps it in the band |
| SensorService.GenerateAnalysisSummary | src/services/sensorService.ts:166-184 | every field comes from the same readings: the index is CalculateTremorIndex's, the frequency is the dominant frequency rounded to hundredths, the counts are the numbers of peaks and anomalies, the Parkinson flag tests the unrounded frequency, and the mean magnitude is the mean of the magnitudes (absent iff there are no readings); hence the index is in range, the severity is its class, the flag implies a 4–6 Hz reported frequency, and the counts are bounded by the readings |
| SensorService.IncreasingIndicesBound | src/services/sensorService.ts:49-64 | strictly increasing indices inside [lo, hi) number at most hi − lo |
| StorageService.FindById | src/services/storageService.ts:41-44 | the result is the first session with that id, and is null iff no session has it |
| StorageService.FilteredSessionsSpec | src/services/storageService.ts:29-40 | the filtered list is an order-preserving subsequence holding exactly the sessions that meet every truthy bound and the status |
| StorageService.EmptyFilterKeepsAll | src/services/storageService.ts:29-40 | a filter without truthy bounds returns the whole collection |
| StorageService.ZeroBoundsAreIgnored | src/services/storageService.ts:33-36 | a bound of 0 filters like an absent bound; in particular a maximum index of 0 excludes nothing |
| StorageService.DeleteSpec | src/services/storageService.ts:45-49 | deletion keeps, in order, exactly the sessions with another id, and deleting twice is deleting once |
| StorageService.SessionStore.constructor | src/services/storageService.ts:4-7 | both keys start empty |
| StorageService.SessionStore.SaveSession | src/services/storageService.ts:10-19 | on success the collection becomes the old one plus the session at the end; a failed write is rethrown and leaves the collection unchanged; the slot is untouched |
| StorageService.SessionStore.GetAllSessions | src/services/storageService.ts:20-28 | returns the stored collection, or [] when nothing is stored or the blob cannot be parsed |
| StorageService.SessionStore.GetFilteredSessions | src/services/storageService.ts:29-40 | returns the filtered subsequence of the stored collection |
| StorageService.SessionStore.GetSessionById | src/services/storageService.ts:41-44 | returns the first stored session with the id, or null |
| StorageService.SessionStore.DeleteSession | src/services/storageService.ts:45-49 | writes back the collection without that id |
| StorageService.SessionStore.ClearAllSessions | src/services/storageService.ts:50-52 | removes the collection key, so the collection reads as empty |
| StorageService.SessionStore.SaveCurrentSession | src/services/storageService.ts:53-55 | overwrites the slot on success and leaves it on a failed write |
| StorageService.SessionStore.GetCurrentSession | src/services/storageService.ts:56-59 | null for an empty slot, the stored value otherwise, and a rejection exactly when the slot blob cannot be parsed |
| StorageService.SessionStore.ClearCurrentSession | src/services/storageService.ts:60-62 | empties the slot and leaves the collection |
| StorageService.SessionStore.ExportToJSON | src/services/storageService.ts:63-66 | the exported text encodes the collection as getAllSessions reads it |
| StorageService.SessionStore.ImportFromJSON | src/services/storageService.ts:67-75 | the import replaces the collection; it rejects iff the text is malformed or the write fails, and then nothing changes |
| StorageService.CurrentSlotRoundTrip | src/services/storageService.ts:53-62 | reading the slot after a save gives the saved value, and after a clear gives null |
| StorageService.ExportImportRoundTrip | src/services/storageService.ts:63-75 | importing an export restores the same collection, and a session saved afterwards is found by its id |
| PdfService.TremorIndices | src/services/pdfService.ts:19 | one index per session, in order |
| PdfService.MinOf | src/services/pdfService.ts:25 | a lower bound of the indices that one of them attains |
| PdfService.MaxOf | src/services/pdfService.ts:26 | an upper bound of the indices that one of them attains |
| PdfService.CountWithStatus | src/services/pdfService.ts:28-32 | a count of sessions is never more than the sessions |
| PdfService.CalculateStatistics | src/services/pdfService.ts:7-34 | all zeros for no sessions; otherwise min ≤ every index ≤ max with both attained, the total is the number of sessions, and the per-status counts are the filter counts |
| PdfService.SumBetweenExtremes | src/services/pdfService.ts:24-26 | n·min ≤ sum ≤ n·max |
| PdfService.RoundedMeanBetween | src/services/pdfService.ts:24 | the rounded mean of values in [lo, hi] is in [lo, hi] |
| PdfService.AverageWithinExtremes | src/services/pdfService.ts:24-26 | for integer indices, the rounded average index lies between the minimum and the maximum |
| PdfService.StatusCountsSum | src/services/pdfService.ts:28-32 | the three counts never exceed the sessions, and add up to them when every status is one of the three labels |
| PdfService.StatusCountsCover | src/services/pdfService.ts:28-32 | the statistics' per-status counts add up to the total when every status is a known label |
| PdfService.CountAfterAppend | src/services/pdfService.ts:28-32 | appending a session adds 1 to its own status count only |
| PdfService.ExtremesAfterAppend | src/services/pdfService.ts:25-26 | appending an index widens min and max to include it |
| PdfService.StatisticsAfterSave | src/services/pdfService.ts:7-34 | after a save the statistics count one more session, add its duration, add 1 to its status, and widen min and max; from an empty history, min, max and average are the new index |
| SyncService.Dedup | src/services/syncService.ts:26 | deduplication never lengthens the list |
| SyncService.DedupSpec | src/services/syncService.ts:26 | the result is a subsequence of the input with no repeated id; its ids are the input ids minus those already seen, every reading is kept, and each id is kept at the first index where it appears (FirstOccurrences) |
| SyncService.DedupKeepsFirstOccurrences | src/services/syncService.ts:26 | the Set keeps every reading and an id exactly at its first occurrence when not seen before, in input order, against a reference definition that scans from the back |
| SyncService.DedupIsSubsequence | src/services/syncService.ts:26 | the Set only drops items: its result is a subsequence of the input |
| SyncService.IdsInConcat | src/services/syncService.ts:26 | the ids of a concatenation are the union of the ids |
| SyncService.PendingIds | src/services/syncService.ts:26 | one pending-id item per id, in order |
| SyncService.NoSamplesInIds | src/services/syncService.ts:26 | the appended ids contribute no reading items |
| SyncService.DedupConcat | src/services/syncService.ts:26 | deduplicating a concatenation deduplicates the second part against what the first part held |
| SyncService.DedupOfDistinct | src/services/syncService.ts:26 | a list with distinct ids, none already seen, is left unchanged |
| SyncService.DedupOfSeenIds | src/services/syncService.ts:26 | ids that were all seen before are dropped entirely |
| SyncService.UnionPendingSpec | src/services/syncService.ts:23-34 | the new pending list has no repeated id, holds the old ids plus the new ones and every reading; a duplicate-free old list is kept as it is and followed by the new ids not already pending, each once, in the order they first appear |
| SyncService.UnionOfDistinct | src/services/syncService.ts:23-34 | for a duplicate-free old list, marking yields the old list followed by the first occurrences of the new ids that were not already pending |
| SyncService.MarkingTwiceIsMarkingOnce | src/services/syncService.ts:23-34 | marking the same ids twice gives the same list as marking them once |
| SyncService.UnsyncedSpec | src/services/syncService.ts:107-115 | un-marking keeps a subsequence of the pending list holding the old ids minus the synced ones and every reading; after marking `marked` and syncing `synced` the pending ids are the old ones plus the marked ones minus the synced ones |
| SyncService.SessionsToSyncSpec | src/services/syncService.ts:43-50 | the sessions to sync are an order-preserving subsequence of the collection, holding exactly those whose id is pending |
| SyncService.SampleIndexInRange | src/services/syncService.ts:66-70 | every sample position ⌊k·n/m⌋ for k < m is a valid index |
| SyncService.SampleIndexIncreasing | src/services/syncService.ts:66-70 | when n ≥ m the sample positions strictly increase, so no reading is taken twice |
| SyncService.Sampled | src/services/syncService.ts:63-74 | a list of at most maxCount readings is returned as is, a longer one yields exactly maxCount readings |
| SyncService.SampledSpec | src/services/syncService.ts:63-74 | the sample starts with the first reading, and the k-th sample is the reading at ⌊k·n/m⌋, at strictly increasing positions |
| SyncService.SampleAtStep | src/services/syncService.ts:66-70 | the loop position k·step is below n iff k < maxCount, and then the reading at ⌊k·step⌋ is the k-th sample |
| SyncService.SampleReadings | src/services/syncService.ts:63-74 | the stepping loop followed by slice(0, maxCount) returns exactly Sampled |
| SyncService.Compressed | src/services/syncService.ts:54-59 | the transfer copy has at most 500 readings or its original ones, and every other field is unchanged |
| SyncService.CompressedIsBounded | src/services/syncService.ts:54-59 | a session's transfer copy has at most 500 readings and the same id; a session already that small is unchanged |
| SyncService.CompressForTransfer | src/services/syncService.ts:54-59 | one session's transfer copy is Compressed(session) and carries at most 500 readings |
| SyncService.CompressSessions | src/services/syncService.ts:54-59 | mapping the sessions gives each one's transfer copy, position by position |
| SyncService.CompressAll | src/services/syncService.ts:54-59 | one transfer copy per session, in order |
| SyncService.GetPendingSessions | src/services/syncService.ts:35-42 | the pending list read from the slot, or [] when the slot is empty or cannot be parsed |
| SyncService.MarkSessionsForSync | src/services/syncService.ts:23-34 | on success the slot holds the pending key and the deduplicated union; a failed write is swallowed and changes nothing |
| SyncService.GetSessionsToSync | src/services/syncService.ts:43-50 | returns exactly the stored sessions whose id is pending, in stored order |
| SyncService.PrepareDataForTransfer | src/services/syncService.ts:51-62 | the transfer list is the compressed sessions to sync, each with at most 500 readings |
| SyncService.MarkAsSynced | src/services/syncService.ts:107-115 | on success the slot holds the pending list minus the synced ids; a failed write is rethrown and changes nothing |
| SyncService.CleanupSyncedData | src/services/syncService.ts:126-130 | after the deletes the collection holds, in order, exactly the sessions whose id was not given; an empty id list writes nothing |
| SyncService.DeleteOneMore | src/services/syncService.ts:126-130 | deleting one more id from the sessions that avoid the first j ids leaves exactly those that avoid the first j + 1 ids |
| TremorSessionHook.LiveTremorIndex | src/hooks/useTremorSession.ts:36-48 | the live index is in [0, 100], is 45 for an empty buffer, and is otherwise 10 × mean magnitude rounded to nearest and clamped |
| TremorSessionHook.RestingDeviceLiveIndex | src/hooks/useTremorSession.ts:43-47 | a device at rest (magnitude 9.8) shows live index 98 (Alto) while the engine's index is 0 (Bajo) |
| TremorSessionHook.DecimalString | src/hooks/useTremorSession.ts:14 | a number prints as at least one digit |
| TremorSessionHook.DecimalStringInjective | src/hooks/useTremorSession.ts:14 | different numbers print differently |
| TremorSessionHook.SessionIdAt | src/hooks/useTremorSession.ts:14 | an id is "session_" followed by the clock reading |
| TremorSessionHook.SessionIdsAreUnique | src/hooks/useTremorSession.ts:14 | sessions started at different milliseconds get different ids |
| TremorSessionHook.TremorStatus | src/hooks/useTremorSession.ts:57-61 | the stored status label is the severity class of the index |
| TremorSessionHook.SessionRecord | src/hooks/useTremorSession.ts:54-72 | the record keeps the id, times, buffer, index and notes; its duration is the elapsed time in whole seconds, rounded down; its status is the label of the index's severity |
| TremorSessionHook.SamplesOf | src/hooks/useTremorSession.ts:90-94 | the snapshot lists one item per buffered reading, in order |
| TremorSessionHook.ReadingsOfSamples | src/hooks/useTremorSession.ts:90-104 | the readings read back from a snapshot are the buffer that was saved |
| TremorSessionHook.SnapshotRoundTrip | src/hooks/useTremorSession.ts:87-107 | a snapshot can be resumed iff its id is non-empty and its start time non-zero, and resuming restores the buffer |
| TremorSessionHook.SyncSlotIsNotRestorable | src/services/syncService.ts:27-30 | the slot written by the sync bookkeeping has no start time, so it is never resumable |
| TremorSessionHook.BufferHoldsLatestReadings | src/hooks/useTremorSession.ts:32 | appending reading after reading keeps the latest 1000 of the stream, in order |
| TremorSessionHook.TremorSession.constructor | src/hooks/useTremorSession.ts:6-10 | inactive, empty buffer, no id, start time 0, live index 45 |
| TremorSessionHook.TremorSession.StartSession | src/hooks/useTremorSession.ts:13-19 | a fresh "session_<ms>" id, an empty buffer, active, start time from the clock, live index back to 45 |
| TremorSessionHook.TremorSession.AddReading | src/hooks/useTremorSession.ts:22-33 | the reading built from the sample is appended and the buffer is cut to its last 1000; the live index follows; nothing else changes, whether or not the session is active |
| TremorSessionHook.TremorSession.StopSession | src/hooks/useTremorSession.ts:51-84 | returns a record iff there is an id, the session is active and the save succeeds; then the record is appended to the collection and the hook resets; otherwise nothing changes |
| TremorSessionHook.TremorSession.PauseSession | src/hooks/useTremorSession.ts:87-96 | with an id, the snapshot overwrites the slot and the session goes inactive; a failed write is rethrown with the session still active; without an id nothing happens |
| TremorSessionHook.TremorSession.ResumeSession | src/hooks/useTremorSession.ts:99-107 | a resumable snapshot restores id, start time and buffer and makes the session active; anything else leaves the hook as it was; an unparsable slot rejects |
| TremorSessionHook.PauseThenResume | src/hooks/useTremorSession.ts:87-107 | pausing then resuming a started session brings back the same id, start time and buffer, active |
| TremorSessionHook.PauseSyncResume | src/services/syncService.ts:23-34 | marking sessions for sync between pause and resume leaves the paused session unresumable and the hook inactive |
| SensorStreamHook.SensorStream.constructor | src/hooks/useSensorStream.ts:6-11 | an empty buffer with index 0, frequency 0 and severity Bajo |
| SensorStreamHook.SensorStream.WithDefaultCap | src/hooks/useSensorStream.ts:6 | the default cap is 500 readings |
| SensorStreamHook.SensorStream.OnAccelerometerPacket | src/hooks/useSensorStream.ts:14-50 | no packet changes nothing; a packet's reading is appended and the buffer is cut to the last maxReadings; the metrics are those of the smoothed buffer once it holds 10 readings and keep their values below that |
| SensorStreamHook.SensorStream.RecomputeMetrics | src/hooks/useSensorStream.ts:33-50 | below 10 readings nothing changes; otherwise the index, frequency and severity are those of the 5-point moving average of the buffer |
| SensorStreamHook.SensorStream.ClearReadings | src/hooks/useSensorStream.ts:53-58 | empties the buffer and resets index, frequency and severity |
| SensorStreamHook.SensorStream.GetAnalysisSummary | src/hooks/useSensorStream.ts:61-64 | null iff the buffer is empty, otherwise the summary of the raw buffer, covering all its readings |
| SensorStreamHook.BufferIsLatestWindow | src/hooks/useSensorStream.ts:29 | appending packet after packet keeps the latest maxReadings readings of the stream, or all of them when the cap is 0 |
| SensorStreamHook.UncappedBufferKeepsAll | src/hooks/useSensorStream.ts:29 | with a cap of 0 nothing is ever dropped |
| SensorStreamHook.SteadySignalShowsNoTremor | src/hooks/useSensorStream.ts:33-50 | a steady signal of 10 or more readings shows index 0 and severity Bajo |
| Seqs.Keep | src/services/storageService.ts:47 | filtering never lengthens, and an element is kept iff it is present and passes the test |
| Seqs.KeepIsSubsequence | src/services/storageService.ts:32 | filtering preserves order |
| Seqs.KeepIdempotent | src/services/storageService.ts:47 | filtering twice by the same test is filtering once |
| Seqs.KeepTwice | src/services/syncService.ts:126-130 | filtering by p and then by q is filtering by both at once |
| Seqs.AppendBoundedIsWindow | src/hooks/useTremorSession.ts:32 | `[...prev, x].slice(-n)` on a window of the last n readings gives the window of the last n readings of the longer stream |
| Seqs.AppendAllBoundedIsWindow | src/hooks/useSensorStream.ts:29 | appending a whole stream one reading at a time keeps the last n readings |

## Left out

- The screens under `app/` and `src/screens/`, and the BLE layer (`bleService.ts`, `useBLEConnection.ts`), are not part of this model. Accelerometer packets arrive as the argument of `OnAccelerometerPacket`.
- PDF rendering, export and sharing (`generateHTML`, `exportToPDF`, `sharePDF`) produce HTML and files, which this model does not cover. Only `calculateStatistics` is modelled.
- `SyncService.isWearOS`, `getSyncStatus`, `receiveData` and `autoGeneratePDF` depend on the device type, JSON text from the watch and PDF export. They are not modelled.
- JSON encoding and decoding are the identity on values. A text that does not parse is the `Malformed` / `Unreadable` case. The format of the text is not modelled.
- PdfService.AverageWithinExtremes: `Session.tremorIndex` is an integer in the model, as the app writes it. The source declares it a `number`, and `importFromJSON` stores any parsed array unchecked, so an imported fractional index is not represented. For such an index the source's rounded average can fall outside [min, max]: for indices [0.4] it is 0.
- StorageService.SessionStore.ImportFromJSON: an imported text is either a list of sessions or malformed. Valid JSON that is not a session array (`{}`, `5`) is stored by the source, because the `as TremorSession[]` cast checks nothing, and getAllSessions then returns a non-array; the model cannot represent such a text.
- Floating point: all arithmetic is on unbounded reals and integers. Rounding error, NaN and Infinity are not modelled. `SampleReadings` follows the loop `i += step` over exact reals, so with floating point a position could drift by one.
- `Math.sqrt` is a parameter required to return the non-negative root. The tremor index and the anomaly test are written without it; lemmas relate them to the root.
- Asynchrony and React scheduling are not modelled. Each `await` runs to completion in order. The effects of both hooks run at the end of the method that changed their input. Concurrent storage writers (two read-modify-write cycles interleaving) are not modelled.
- Storage failures are a `writeFails` argument on these writes only: `saveSession`, `saveCurrentSession`, `importFromJSON`, the writes of `markSessionsForSync` and `markAsSynced`, and the hook operations that call them. The other writes (`deleteSession`, `clearAllSessions`, `clearCurrentSession` and the deletes inside `cleanupSyncedData`) are assumed to succeed, although in the source their rejections propagate just the same.
- SensorService.MovingAverage: requires a window of at least 1. The hook always passes 5; a window of 0 would divide by zero in the source.
- TremorSessionHook.ReadingsOf: the slot's list is typed as readings or ids. On resume, id items (written only by the sync bookkeeping) are skipped. The source would put them in the buffer, but such a slot is never resumable (`SyncSlotIsNotRestorable`).
- SensorService.GenerateAnalysisSummary: for an empty buffer the source's average magnitude is 0/0, i.e. NaN. The model returns `None` there. The hook never asks for a summary of an empty buffer.
- The `WatchSensorPacket` fields other than the accelerometer sample (gyroscope, heart rate, battery) are not modelled. `heartRate` in a stored session is always absent.
