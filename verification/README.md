# Streaming RSSI position estimator

This project models the core of an indoor positioning service for ESP32 anchors. A batch of readings arrives: each
reading names an anchor and carries an RSSI sample. Each anchor keeps a rolling window of its five newest samples.
A reading's weight is the inverse square of its anchor's window average. The position is the weighted centroid of
the anchors' fixed coordinates.

The repository contains three variants of the estimator, and each has its own module:

- `PyOperations` models `Operations.py`.
  - The module-level tables become the fields of a `Tracker` class.
  - `calculate_position` first records every reading. An unknown anchor raises `KeyError`, after the earlier readings
    were recorded. Only then are all weights computed, from the final windows.
  - A zero average raises `ZeroDivisionError`.
  - The result is a pair of reals.
- `CppOperations` models `Operations.cpp`.
  - Each weight is computed right after its own reading was recorded. A second reading of the same anchor therefore
    sees a different window from the first.
  - `1 / pow(0, 2)` is `+inf`, and the sum then becomes `+inf`. The coordinates then become NaN, and converting NaN to
    `int` is undefined. The model reports this as the error `NotANumber`.
  - `DEVICE_POSITIONS.at` throws `out_of_range` for an unknown anchor. The history has already been updated by then,
    because `operator[]` inserts an empty window.
  - The coordinates are truncated toward zero on conversion to `int`.
- `RootOperations` models `Operations_ROOT.cpp`. It is the C++ algorithm with both tables mutable and empty at
  start-up. Every lookup goes through `operator[]`, so an unseen anchor gets the coordinates `(0, 0)`. As a result,
  every estimate from start-up is the origin, or NaN.
- `Hardening` models `exhaustive_hashing`. The text is encoded as UTF-8, and the digest function is applied the given
  number of times. The digest function is a parameter.

The shared modules hold the pure specification functions:

- `Window` holds the rolling window and the average.
- `Centroid` holds the inverse-square weight, normalisation, the weighted centroid and truncation.
- `Readings` holds batches. `Updated` is the history after a batch.
- `Streaming` holds the C++ per-reading weights, the infinity-absorbing total (a zero average's infinite weight makes the sum infinite) and the combination loop's invariant.

Each state-changing method is proved against these specification functions.

In the worked example, anchors (0,0), (8,0) and (4,4) have window averages -2, -2 and -4. The weights 1/4, 1/4 and 1/16
normalise to 4/9, 4/9 and 1/9. So x = 4/9·0 + 4/9·8 + 1/9·4 = 4 and y = 1/9·4 = 4/9:

- `PyOperations.WorkedExample` proves (4, 4/9).
- `CppOperations.WorkedExample` proves (4, 0), after truncation.
- `RootOperations.WorkedExample` proves (0, 0), since its coordinate table starts empty.

## Model

| member | source | states |
|---|---|---|
| Window.Newest | Operations.py:42 | `[-5:]` keeps min(length, 5) samples |
| Window.NewestIsSuffix | Operations.py:42 | the kept samples are exactly the newest ones, in order |
| Window.NewestOfNewest | Operations.py:41-42 | trimming after every append equals trimming once after all appends |
| Window.Push | Operations.cpp:50-51 | `push_back` plus one conditional erase: the new sample is last, and on a window within capacity this is `Newest(h + [x])` |
| Window.PushNeedsBound | Operations.cpp:51 | a single erase does not bring an over-full window back to capacity |
| Window.Sum | Operations.py:35 | the sum of a window; no contract of its own: `SumBounds` bounds it and `Average` is defined from it |
| Window.Average | Operations.py:33-35 | the mean times the length is the sum |
| Window.SumBounds | Operations.py:35 | bounds on every sample bound the sum by length times bound |
| Window.AverageBounds | Operations.py:35 | the average lies between the smallest and the largest sample |
| Window.AverageOfOne | Operations.py:35 | a one-sample window averages to that sample |
| Centroid.InverseSquare | Operations.cpp:53 | `1 / pow(avg, 2)` is infinite iff avg = 0; otherwise it is positive and its product with avg² is 1 |
| Centroid.InverseSquareEven | Operations.py:44 | the weight depends only on the magnitude of the average |
| Centroid.InverseSquareDecreasing | Operations.py:44 | a smaller average magnitude (a stronger signal) earns a strictly larger weight |
| Centroid.SumOfPositives | Operations.py:45 | a sum of positive weights is non-negative, and positive when there is at least one weight |
| Centroid.Scale | Operations.py:46 | each normalised weight times the total gives back the weight |
| Centroid.ScaleSum | Operations.py:46 | the sum of the normalised weights is the sum of the weights over the total |
| Centroid.NormalisedSumIsOne | Operations.py:45-46 | normalised positive weights are positive and sum to 1 |
| Centroid.WeightedCentroid | Operations.py:45-49 | the normalised weighted sums of x and y; no contract of its own: `CentroidInBox`, `CentroidOfOne` and `CentroidExample` state its properties |
| Centroid.DotUpper | Operations.py:48-49 | a coordinate sum under non-negative weights is at most the largest coordinate times the weight sum |
| Centroid.DotLower | Operations.py:48-49 | and at least the smallest coordinate times the weight sum |
| Centroid.CentroidInBox | Operations.py:44-49 | the weighted centroid lies in every box that contains all the anchors |
| Centroid.CentroidOfOne | Operations.py:44-49 | a single anchor's centroid is that anchor |
| Centroid.CentroidExample | Operations.py:44-49 | weights 1/4, 1/4, 1/16 normalise to 4/9, 4/9, 1/9 and place (0,0), (8,0), (4,4) at (4, 4/9) |
| Centroid.Trunc | Operations.cpp:65 | float-to-int conversion truncates toward zero: within one of the value, on the side of zero |
| Centroid.TruncInRange | Operations.cpp:65 | truncation keeps a value inside any integer interval that contains it |
| Centroid.TruncOfInt | Operations.cpp:65 | whole numbers are unchanged |
| Readings.FirstMissing | Operations.cpp:60 | the index of the first reading whose anchor the table lacks (`at` throws there), or the batch length |
| Readings.FirstMissingAt | Operations.cpp:59-60 | an index that is preceded by known anchors and is itself unknown (or the end) is the first missing one |
| Readings.Updated | Operations.py:40-42 | recording a batch touches exactly the keys of the history plus the batch's anchors |
| Readings.UpdatedStep | Operations.py:40-42 | recording one more reading appends its sample to its anchor's window and keeps the newest five |
| Readings.UpdatedWindow | Operations.py:40-42 | each mentioned anchor ends with the newest five of its old window plus its batch samples; every other anchor is unchanged |
| Readings.UpdatedBounded | Operations.py:42 | recording keeps every window within capacity |
| Readings.UpdatedCovers | Operations.py:41 | every anchor the batch mentions has a non-empty window afterwards |
| Readings.FreshWindow | Operations.py:40-42 | from empty windows, and with no repeated anchor, each anchor's window is its own one sample |
| Readings.PositionsOf | Operations_ROOT.cpp:22-23 | each reading's coordinates, or `(0, 0)` where `operator[]` inserts them |
| Readings.WithDefaults | Operations_ROOT.cpp:22-23 | the coordinate table after the lookups: old entries are kept and unseen anchors are added at `(0, 0)` |
| Readings.WithDefaultsStep | Operations_ROOT.cpp:22 | one more lookup inserts `(0, 0)` only for an unseen anchor |
| Readings.DefaultLookup | Operations_ROOT.cpp:22 | the lookup after a prefix yields the coordinates `PositionsOf` assigns to that reading |
| Streaming.StreamingWeights | Operations.cpp:48-56 | one positive (possibly infinite) weight per reading |
| Streaming.StreamingWeightAt | Operations.cpp:49-53 | reading i's weight is the inverse square of its anchor's window just after reading i was recorded |
| Streaming.StreamingStep | Operations.cpp:48-56 | the weights of a prefix extended by one reading gain that reading's weight |
| Streaming.StreamingInfinite | Operations.cpp:53 | a weight is infinite iff its window average, at that moment, is zero |
| Streaming.LastOccurrenceWeight | Operations.cpp:48-56 | the last reading of an anchor is weighted by that anchor's final window |
| Streaming.FinalWindowOfLast | Operations.cpp:48-51 | later readings of other anchors leave that window as it was |
| Streaming.FreshWeights | Operations.cpp:48-56 | from empty windows, and with no repeated anchor, each weight is the inverse square of the reading's own sample |
| Streaming.RepeatedIdStreaming | Operations.cpp:48-56 | the same anchor twice (-2, then -4) is weighted 1/4, then 1/9 |
| Streaming.Add | Operations.cpp:55 | `sum_weights += weight` stays finite iff both operands are finite |
| Streaming.Total | Operations.cpp:55 | the running sum is finite iff every weight is finite |
| Streaming.TotalSnoc | Operations.cpp:55 | the sum of one more weight adds that weight |
| Streaming.TotalIsSum | Operations.cpp:55 | with finite weights the running sum is their real sum |
| Streaming.Normalised | Operations.cpp:61-62 | each `weights[i] / sum_weights`; the total of a non-empty batch is positive |
| Streaming.Combine | Operations.cpp:58-65 | the second loop as a function: NaN for an infinite total, else the truncated centroid; no contract of its own: `CombineFinite`, `CombineNaN`, `CombineInBox`, `CombineSingle`, `CombineEmpty` state its properties and `Accumulate`/`AccumulatedResult` tie the loop to it |
| Streaming.CombineChecked | Operations.cpp:58-65 | `Combine` preceded by the `at` lookups: `out_of_range` for the first unknown anchor; no contract of its own: `CppOperations.EstimateUnknownAnchor` and `CppOperations.Combination` state its properties |
| Streaming.CombineFinite | Operations.cpp:58-65 | with a finite total, the result is the truncated sums of coordinate times normalised weight |
| Streaming.CombineEmpty | Operations.cpp:58-65 | an empty batch yields (0, 0) |
| Streaming.CombineNaN | Operations.cpp:58-65 | NaN iff some weight is infinite; otherwise a position |
| Streaming.CombineInBox | Operations.cpp:58-65 | a position lies inside every box containing the anchors used |
| Streaming.CombineSingle | Operations.cpp:58-65 | one reading with a finite weight yields its anchor's coordinates |
| Streaming.Accumulate | Operations.cpp:61-62 | one iteration of the second loop keeps the running sums equal to the sums over the processed prefix, and the NaN flag equal to "some processed weight is infinite" |
| Streaming.AccumulatedStart | Operations.cpp:58 | `x = y = 0` satisfies that invariant before the loop |
| Streaming.AccumulatedResult | Operations.cpp:58-65 | at the end of the loop, the invariant determines the returned pair or NaN |
| PyOperations.GetAverageRssi | Operations.py:33-35 | `KeyError` iff the anchor is unknown, `ZeroDivisionError` iff its window is empty, otherwise the mean |
| PyOperations.Weight | Operations.py:44 | succeeds iff the window is present, non-empty and averages to non-zero; then it is the positive inverse square |
| PyOperations.Weights | Operations.py:44 | succeeds iff every reading's weight does, elementwise; otherwise the first failure's exception |
| PyOperations.Position | Operations.py:44-49 | weights, then the lookups, then the centroid over the updated history; no contract of its own: `PositionAfterRecording`, `PositionEmpty`, `PositionSingle`, `PositionInBox` and `WorkedExample` state its properties |
| PyOperations.Tracker.constructor | Operations.py:21-31 | the configured anchor table, and one empty window per anchor |
| PyOperations.Tracker.Record | Operations.py:41-42 | an unknown anchor raises and changes nothing; otherwise it appends and keeps the newest five |
| PyOperations.Tracker.RecordBatch | Operations.py:40-42 | records readings up to the first unknown anchor; the history is `Updated` over exactly that prefix |
| PyOperations.Tracker.CalculatePosition | Operations.py:37-52 | `KeyError` for the first unknown anchor, after the prefix was recorded; otherwise the history is `Updated` and the result is the weighted centroid over the new windows |
| PyOperations.PositionAfterRecording | Operations.py:40-46 | after recording, every window in play is non-empty, and the estimate fails (with `ZeroDivisionError` only) iff some window averages to zero |
| PyOperations.RepeatedIdSameWeight | Operations.py:44 | two readings of one anchor get the same weight |
| PyOperations.RepeatedWindow | Operations.py:40-42 | one anchor reported twice from start-up ends with the window [-2, -4] |
| PyOperations.RepeatedIdAfterRecording | Operations.py:40-44 | both of those readings weigh 1/9 (average -3), unlike the C++ variant |
| PyOperations.PositionEmpty | Operations.py:44-52 | an empty batch yields (0, 0) |
| PyOperations.PositionSingle | Operations.py:44-52 | a single reading yields exactly its anchor's coordinates |
| PyOperations.PositionInBox | Operations.py:44-52 | a non-empty batch's estimate lies in every box containing its anchors |
| PyOperations.OneSampleWeight | Operations.py:44 | a one-sample window weighs the inverse square of its sample |
| PyOperations.FreshWeights | Operations.py:40-44 | from empty windows, and with no repeated anchor and no zero sample, each weight is the inverse square of its own sample |
| PyOperations.ExampleWeights | Operations.py:44 | the example batch from start-up weighs 1/4, 1/4, 1/16 |
| PyOperations.WorkedExample | Operations.py:37-52 | the example batch from start-up is placed at (4, 4/9) |
| CppOperations.GetAverageRssi | Operations.cpp:39-42 | NaN iff the window is empty or absent; otherwise the mean |
| CppOperations.Tracker.constructor | Operations.cpp:33-37 | one empty window per configured anchor |
| CppOperations.Tracker.Record | Operations.cpp:49-53 | inserts, appends, and erases the oldest sample once; the weight is the inverse square of the new window's average |
| CppOperations.Tracker.CalculatePosition | Operations.cpp:44-66 | the history is `Updated` over the whole batch, even when `at` throws, and the result is `Estimate` of the old history |
| CppOperations.Combination | Operations.cpp:58-65 | the second loop returns `out_of_range` at the first unknown anchor, NaN for an infinite weight, else the truncated centroid |
| CppOperations.Estimate | Operations.cpp:44-66 | the result of `calculate_position` from a history; no contract of its own: the `Estimate…` lemmas below state its properties and `Tracker.CalculatePosition` is proved equal to it |
| CppOperations.EstimateEmpty | Operations.cpp:44-66 | an empty batch yields (0, 0) |
| CppOperations.EstimateUnknownAnchor | Operations.cpp:60 | `out_of_range` iff some anchor is unknown, naming the first such reading |
| CppOperations.EstimateNaN | Operations.cpp:53-62 | with known anchors, NaN iff some window averaged to zero just after its reading; otherwise a position |
| CppOperations.EstimateWithinAnchors | Operations.cpp:58-65 | every position lies within the configured anchors' box, 0..8 by 0..4 |
| CppOperations.EstimateSingle | Operations.cpp:44-66 | a single reading with a non-zero window average yields its anchor |
| CppOperations.ExampleWeights | Operations.cpp:48-56 | the example batch from start-up weighs 1/4, 1/4, 1/16 |
| CppOperations.ExampleCombination | Operations.cpp:58-65 | those weights place the batch at (4, 4/9), truncated to (4, 0) |
| CppOperations.WorkedExample | Operations.cpp:44-66 | the example batch from start-up yields (4, 0) |
| RootOperations.Tracker.constructor | Operations_ROOT.cpp:5-6 | both global tables start empty |
| RootOperations.Tracker.Record | Operations_ROOT.cpp:12-17 | inserts, appends, erases once, weighs; the coordinate table is untouched |
| RootOperations.Tracker.CalculatePosition | Operations_ROOT.cpp:8-26 | the history is `Updated`, the coordinate table gains `(0, 0)` for unseen anchors, and the result is `Estimate` of the old tables |
| RootOperations.Tracker.PositionOf | Operations_ROOT.cpp:22 | `device_positions[id]` inserts `(0, 0)` for an unseen anchor and returns the entry |
| RootOperations.Tracker.Combination | Operations_ROOT.cpp:20-25 | the second loop inserts defaults and returns NaN or the truncated centroid of the old table's coordinates |
| RootOperations.Estimate | Operations_ROOT.cpp:8-26 | the result of `calculate_position` from both tables; no contract of its own: `EstimateAtOrigin`, `EstimateNaN` and `WorkedExample` state its properties and `Tracker.CalculatePosition` is proved equal to it |
| RootOperations.DefaultsAtOrigin | Operations_ROOT.cpp:22-23 | lookups keep a table of origins a table of origins |
| RootOperations.EstimateAtOrigin | Operations_ROOT.cpp:20-25 | with every anchor at the origin, the only outcomes are (0, 0) and NaN |
| RootOperations.EstimateNaN | Operations_ROOT.cpp:16-23 | NaN iff some window averaged to zero just after its reading; otherwise a position |
| RootOperations.WorkedExample | Operations_ROOT.cpp:8-26 | from the empty start-up tables the example batch is placed at (0, 0) |
| Hardening.Iterate | Operations.py:57-58 | the digest function applied n times; no contract of its own: `IterateAdd` and `DigestWidth` state its properties and `ExhaustiveHashing` is proved equal to it |
| Hardening.IterateAdd | Operations.py:57-58 | m rounds followed by n rounds are m + n rounds |
| Hardening.DigestWidth | Operations.py:58 | with a fixed-width digest, at least one round yields exactly that width |
| Hardening.EncodeChar | Operations.py:55 | a character's UTF-8 encoding has the width its code point needs: ASCII is one byte, and the other bytes are continuation bytes |
| Hardening.Encode | Operations.py:55 | the encoding is at least as long as the text |
| Hardening.LeadOfEncodeChar | Operations.py:55 | the lead byte announces the width of the encoding |
| Hardening.CodePointOfEncodeChar | Operations.py:55 | the bytes spell the character's code point |
| Hardening.DecodeEncode | Operations.py:55 | decoding inverts `encode()`, so the bytes hashed determine the text |
| Hardening.EncodeAscii | Operations.py:55 | ASCII text encodes byte for byte |
| Hardening.ExhaustiveHashing | Operations.py:54-60 | the digest is the hash applied `iterations` times to the encoded text, and zero times for a negative count |

## Left out

- MQTT, CSV, JSON and timestamps are not modelled: subscribing, parsing messages, the CSV log and publishing. A batch is a sequence of `(id, rssi)` readings.
- The thread pool is not modelled. Each call is one sequential step.
- `encrypt_data` (RSA-OAEP, base64) is not modelled, and neither is key generation (`Keygen.py`). They are library calls.
- SHA-512 is not modelled. `Hardening.ExhaustiveHashing` takes the digest function as a parameter.
- Floating-point rounding, overflow and underflow are not modelled. Weights and averages are exact reals, so float32/double precision effects are absent. Division by a zero average is kept: it gives `+inf` in C++, which makes the sum infinite and the coordinates NaN.
- Centroid.Trunc: truncates the exact real value. In C++ the value is a float32 sum with rounding error. Where the exact centroid is a whole number, the C++ result can be one less (toward zero) than `Trunc` of the exact value; for example, the exact x = 8 may be computed as 7.9999995 and truncated to 7.
- Streaming.Combine: the truncated centroid is computed from exact reals, so the whole-number case above can differ by one from the C++ result.
- CppOperations.Estimate: inherits the same difference at whole-number centroids (and so does `RootOperations.Estimate`).
- NaN converted to `int` is undefined in C++. The model returns `Err(NotANumber)` instead of an unspecified pair.
- `CppOperations.GetAverageRssi`: the `operator[]` insertion it would perform for an unseen anchor is not modelled, because the function does not change state. `calculate_position` always inserts the window before calling it.
- `get_average_rssi` is not defined in `Operations_ROOT.cpp`. That variant is modelled with the definition from `Operations.cpp`.
- `Hardening.Encode`: Python `str.encode()` raises `UnicodeEncodeError` on a lone surrogate. A Dafny `char` cannot hold one, so that error path does not arise.
- `Hardening.ExhaustiveHashing` takes an integer count. A non-integer `iterations` (a `TypeError` for `range`) is not modelled.
- The printing in `calculate_position` is not modelled.
