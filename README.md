# Real-time lip-sync classifier, modelled in Dafny

This project models the vowel classifier of a real-time lip-sync library for the Godot engine, written in Rust. The library turns audio frames into a running estimate of which vowel (A, E, I, O, U) is being spoken.

Four modules follow the four core source files:

- `Model` (`model.dfy`, from `src/model.rs`) holds the fixed data:
  - the vowel labels;
  - the compiled-in formant template table, with 3 and 4 peaks per vowel;
  - the `DataPoint` pair and its `Add`, `Mul`, `MulAssign` and `Div` operators;
  - the `VowelEstimate` record. `VowelEstimate::new` is the datatype's constructor, so the record holds exactly the three values it is built from.
- `Algorithm` (`algorithm.dfy`, from `src/algorithm.rs`) is the numeric kernel. Each in-place pass is a method on an `array<real>`, and its postcondition ties the new contents to a function of the old ones. The passes are:
  - `normalize`, `smoothing`, `hamming`, `lifter` and `filter`;
  - `lerp` and `inverse_lerp`.
- `Job` (`job.dfy`, from `src/job.rs`) is the per-frame classifier:
  - peak extraction;
  - the bounded peak and classification logs;
  - positional averaging of the peak log;
  - template distances and the argmin;
  - the hysteresis rule that turns a raw estimate into the reported vowel;
  - the `Job` class that owns the logs, with `execute`.
- `Profile` (`profile.dfy`, from `src/profile.rs`) is the calibration profile:
  - `MfccData` holds the calibration vectors of one phoneme and their averaged native array;
  - `Profile` owns one `MfccData` per phoneme.

Modelling choices:

- `f32` and `f64` are modelled as `real`, so the model has no rounding, NaN or infinity.
- `Vec` and `VecDeque` fields are `seq` fields of a class, and methods reassign them.
- Where the source would panic, on an out-of-range index or a subtraction that underflows, the model has a precondition. The one exception is the scan bound described under Findings, which is modelled explicitly.
- The random fallback of `get_vowel` is a nondeterministic choice of a label in 0..4.

Behaviour the proofs make explicit:

- **The amplitude term is signed.** A template distance adds `template.amplitude - observed.amplitude` without taking its absolute value, so a distance can be negative. As a result, observing exactly the 3-peak "A" template scores 0 against "A" but 8/255 - 0.3 < 0 against "U", and the frame is classified as "U" (`Job.ExactATemplateClassifiedAsU`). An exact match still scores 0 against its own label (`Job.ExactMatchScoresZero`).
- **A peak log's first eviction drops the newest entry.** A peak log starts empty and fills at the back. Once full, new entries go to the front and the back is dropped. So after pushes a, b, c, d the log holds d, a, b (`Job.FillingLogDropsNewestFirst`). The two classification logs start full, so for them every push is a clean shift (`Job.PushShiftsFullLog`).
- **A repeated miss on a loud frame draws at random.** This happens when there is no estimate (-1) on two frames in a row and the level is high (`amount >= 0.5`). `get_vowel` then draws a random label even though a previous vowel is on record (`Job.RepeatedMissDrawsAtRandom`).
- **`normalize` measures its range from 0.** It starts its running minimum and maximum at 0, not at the first sample. The range therefore always includes 0, and a zero range means the frame is all zeros.
- **`lifter` zeroes index `len - 1 - level`.** Index `len - 1 - level` itself is zeroed, so only the highest `level` coefficients survive at the top.
- **`filter` gates on the sample values.** It compares each value, not its bin index, against `lowcut` and `highcut`.
- **`hamming` weights by the sample value.** It multiplies each sample by `0.54 - 0.46·(2π·x/(n-1))`, using the sample value `x` where a cosine of the index belongs. `Algorithm.Hamming` models this as written.
- **The native array is never allocated.** `MfccData::default()` leaves `mfcc_native_array` empty, but `update_native_array` writes indices 0..11 of it. So a calibrating `update_mfcc` on an entry created by `add_mfcc` indexes out of bounds once the entry still holds a vector after trimming, that is, whenever `mfcc_data_count > 0` (`Profile.FreshEntryCannotAverage`). With `mfcc_data_count == 0`, the value `Profile::new` gives, trimming empties the list and `update_native_array` returns early.
- **`add_mfcc` ignores its name.** The name argument is never stored.
- **`get_phoneme`'s range check does nothing.** Its result is discarded, so an index past the end panics.
- **A negative count empties and then panics.** `remove_old_calibration_data` with a negative count empties the list and then removes from the empty list, which panics.

## Model

| member | source | states |
|---|---|---|
| Model.TemplateTableShape | src/model.rs:14-111 | both template groups define all five labels, with 3 resp. 4 points, first amplitude 1.0 and strictly increasing bin indices |
| Model.Template | src/model.rs:15-111 | the template of a label has as many points as the arity and is well formed |
| Model.Add | src/model.rs:134-139 | `Add` is the component-wise sum of the two points |
| Model.Scale | src/model.rs:151-156 | `MulAssign` by a scalar multiplies both components by it |
| Model.ScaleLaws | src/model.rs:151-156 | `MulAssign` scales both components: it distributes over `Add`, composes multiplicatively and 1.0 is neutral |
| Model.Mul | src/model.rs:141-149 | the written `Mul` has the complex product's real part, and its imaginary part differs from the complex product's by (a − b)·(c − d) |
| Model.Div | src/model.rs:158-167 | the written `Div` has the complex quotient's real part, and its imaginary part differs from the complex quotient's by (a − b)·d / (c² + d²) |
| Model.Norm2 | src/model.rs:163 | the divisor c²+d² of `Div` is never negative |
| Model.MulAsWrittenIsNotComplexProduct | src/model.rs:141-149 | the written `Mul` gives i·i = −1 + i, not the complex product |
| Model.ComplexMulSquaresI | src/model.rs:141-149 | the complex product gives i·i = −1 |
| Model.DivAsWrittenIsNotComplexQuotient | src/model.rs:158-167 | the written `Div` gives i / i = 1 − i, not the complex quotient |
| Model.ComplexDivUndoesMul | src/model.rs:158-167 | the complex quotient undoes the complex product for any divisor with c²+d² ≠ 0 |
| Algorithm.MaxFromZero | src/algorithm.rs:19-25 | the running maximum started at 0.0 is never negative |
| Algorithm.MinFromZero | src/algorithm.rs:19-25 | the running minimum started at 0.0 is never positive |
| Algorithm.ExtremesBound | src/algorithm.rs:19-25 | every sample lies between the running minimum and maximum |
| Algorithm.Extremes | src/algorithm.rs:18-25 | the first loop of `normalize` computes the running minimum and maximum from 0.0 |
| Algorithm.Normalize | src/algorithm.rs:18-32 | the frame becomes its normalised image, sample by sample |
| Algorithm.RescaleInUnitInterval | src/algorithm.rs:27-31 | a sample between the extremes is rescaled into [0, 1], also with a zero range |
| Algorithm.NormalizedInUnitInterval | src/algorithm.rs:18-32 | every normalised sample lies in [0, 1], for every input |
| Algorithm.NormalizedRescales | src/algorithm.rs:27-31 | with a non-zero range each sample becomes (x − min) / (max − min) |
| Algorithm.NormalizedZeroRange | src/algorithm.rs:27-31 | a zero range means an all-zero frame, which is returned unchanged |
| Algorithm.SmoothedBetween | src/algorithm.rs:34-39 | each smoothed bin lies between the current and previous value; smoothing a frame with itself changes nothing |
| Algorithm.Smoothing | src/algorithm.rs:34-39 | each bin becomes the mean of itself and the previous frame's bin; the previous frame must be at least as long |
| Algorithm.Hamming | src/algorithm.rs:41-49 | both endpoints end up 0.0; every interior sample is multiplied by the weight as written |
| Algorithm.LifteredKeepsEnds | src/algorithm.rs:101-109 | indices ≤ level and ≥ len − level are kept, those in between zeroed; liftering is idempotent; a level reaching the middle keeps everything |
| Algorithm.Lifter | src/algorithm.rs:101-109 | exactly the indices i with level < i ≤ len − 1 − level are zeroed |
| Algorithm.SeqMin | src/algorithm.rs:112-115 | the folded minimum is an element of the frame and no larger than any element |
| Algorithm.FloorValue | src/algorithm.rs:117-119 | the replacement value is never zero: 0.000001 replaces a zero minimum |
| Algorithm.FilteredKeepsMinimum | src/algorithm.rs:111-126 | in-band values are kept, out-of-band values become the floor, and a non-zero frame minimum stays the minimum |
| Algorithm.Filter | src/algorithm.rs:111-126 | values ≤ lowcut or ≥ highcut are replaced by the frame minimum (or 0.000001), all others kept |
| Algorithm.Lerp | src/algorithm.rs:128-131 | `lerp` gives `a` at 0, `b` at 1, and a point between `a` and `b` for a fraction in [0, 1] |
| Algorithm.InverseLerp | src/algorithm.rs:133-138 | `inverse_lerp` gives 0 at `a` and 1 at `b`; for a < b it lies in [0, 1] exactly across [a, b], below 0 under `a` and above 1 past `b` |
| Algorithm.LerpRoundTrip | src/algorithm.rs:128-138 | `inverse_lerp` undoes `lerp` and `lerp` undoes `inverse_lerp` whenever a ≠ b |
| Job.Push3 | src/job.rs:253-260 | a push onto a log of at most three entries leaves one to three entries, contains the new value and nothing that was not there before |
| Job.PushShiftsFullLog | src/job.rs:256-259 | on a full log the new value goes to index 0, old 0..1 move to 1..2 and the old last entry is dropped |
| Job.FullLogKeepsLastThree | src/job.rs:253-269 | a full log holds the last three values pushed, newest first |
| Job.FillingLogDropsNewestFirst | src/job.rs:179-188 | a log filled from empty holds d, a, b after pushes a, b, c, d |
| Job.PushKeepsPeakLog | src/job.rs:179-199 | pushing peaks of the log's arity keeps at most three entries, all of that arity |
| Job.PushKeepsClassLog | src/job.rs:253-269 | pushing −1 or a label keeps a classification log at exactly three entries in range |
| Job.PeakIndicesExact | src/job.rs:99-100 | the collected indices are exactly the interior strict local maxima above the threshold, strictly increasing |
| Job.ScanFromScales | src/job.rs:94-111 | the scan from any consistent intermediate state ends in the declarative list of scaled local maxima |
| Job.PeaksAreLocalMaxima | src/job.rs:94-111 | `get_peaks` equals the scaled points at all peak indices |
| Job.PeaksFollowIndices | src/job.rs:94-111 | the returned points carry exactly the peak indices, in order |
| Job.PeaksAreExactlyLocalMaxima | src/job.rs:99-100 | every returned index is an interior strict local maximum above the threshold, indices strictly increase, and none is missed |
| Job.PeaksScaledByFirst | src/job.rs:101-106 | the first amplitude is 1.0 and every later one is its value divided by the first peak's value |
| Job.SingleBumpPeak | src/job.rs:94-111 | [0, 0, 1, 0, 0] with threshold 0.5 gives one peak at index 2 with amplitude 1.0 |
| Job.GetPeaks | src/job.rs:94-111 | the loop computes the peak scan |
| Job.AverageOfCopies | src/job.rs:112-152 | averaging a log that holds the same peaks in every entry gives those peaks back |
| Job.AverageIsMean | src/job.rs:119-149 | each averaged coordinate is the column sum divided by the number of entries |
| Job.Distances | src/job.rs:154-177 | five distances for 3 or 4 peaks, none for any other count |
| Job.ExactMatchScoresZero | src/job.rs:167-174 | observing exactly a label's template scores 0 against that label |
| Job.ExactATemplateClassifiedAsU | src/job.rs:171 | with the signed amplitude term the exact "A" template scores below zero against "U" and is classified as "U" |
| Job.GetDistanceFromDb | src/job.rs:154-177 | the loops compute the per-label sum of \|Δindex\|·(1/255) plus the signed amplitude difference |
| Job.FirstArgMin | src/job.rs:212-224 | the result is the first position of the minimum distance |
| Job.FirstArgMinUnique | src/job.rs:212-224 | only one position is the first minimum |
| Job.ArgMin | src/job.rs:212-224 | the scan bounded by the vector length returns the first minimum position |
| Job.ScanAsWritten | src/job.rs:212-222 | the scan as written with a given bound: when it does not read past the end, its result is the starting candidate or a visited position whose distance is below the starting minimum |
| Job.ScanPastEndPanics | src/job.rs:215-216 | a scan whose bound exceeds the vector length reads past the end |
| Job.ScanAsWrittenAlwaysPanics | src/job.rs:212-222 | with the bound FFT_SAMPLES every five-distance scan reads past the end |
| Job.ScanWithLengthBoundIsArgMin | src/job.rs:212-224 | the same scan bounded by the vector length returns the first minimum position |
| Job.Classify | src/job.rs:209-224 | the estimate for a usable peak log is a label in 0..4 |
| Job.VowelChoice | src/job.rs:230-250 | the hysteresis choice is the previous vowel or the current estimate and never −1; a quiet frame keeps a previous vowel |
| Job.VowelChoiceIsLabel | src/job.rs:227-251 | the reported vowel is the previous vowel, the current estimate or a random label, and never −1 |
| Job.VowelChoiceCases | src/job.rs:230-250 | the four cases in their order, and exactly when the random fallback is taken |
| Job.RepeatedMissDrawsAtRandom | src/job.rs:238-250 | two misses in a row on a loud frame fall through to a random label despite a previous vowel |
| Job.Clamp | src/job.rs:70 | the clamped value lies in the bounds and equals the input when the input does |
| Job.Amount | src/job.rs:70 | the confidence amount lies in [0, 1] |
| Job.AmountIsLinear | src/job.rs:70 | across the dynamic range the amount is (rms + 100) / 100, and `lerp` maps it back to the level |
| Job.Job.constructor | src/job.rs:20-28 | both classification logs start as [−1, −1, −1], both peak logs and the previous spectrum empty |
| Job.Job.PushVowel | src/job.rs:253-260 | only the vowel log changes, by the push rule |
| Job.Job.PushEstimate | src/job.rs:262-269 | only the estimate log changes, by the push rule |
| Job.Job.PushPeaks | src/job.rs:179-199 | only the log of the matching arity changes, by the push rule; any other arity changes nothing |
| Job.Job.GetPeaksAverage | src/job.rs:112-152 | the result is the positional mean of the log of the requested arity, empty for any other size |
| Job.Job.EstimateVowel | src/job.rs:201-225 | without 3 or 4 peaks returns −1 and leaves every log alone; otherwise pushes the peaks and returns the classification of the updated log |
| Job.Job.GetVowel | src/job.rs:227-251 | the estimate is the raw classification, the vowel follows the hysteresis cases and is always a label |
| Job.Job.SmoothSpectrum | src/job.rs:48-51 | the stored spectrum is the new one, averaged with the previous one when there is one |
| Job.Job.Execute | src/job.rs:30-76 | a stream shorter than 1024 gives `None` and changes nothing. Otherwise the smoothed spectrum is stored and the features' peaks go to the log of their arity. The estimate is the classification of that log, or −1 without 3 or 4 peaks. The vowel follows the hysteresis choice against the logs as they were. Both are pushed, and the amount is the clamped level in [0, 1] |
| Profile.Appended | src/profile.rs:24-32 | a vector of length 12 is appended, any other length changes nothing |
| Profile.Kept | src/profile.rs:34-38 | the number kept is the smaller of the list length and the count |
| Profile.DropFrontKeepsNewest | src/profile.rs:34-38 | dropping the front while the list is longer than the count keeps exactly the newest entries |
| Profile.KeepNewestFacts | src/profile.rs:34-38 | trimming is idempotent, keeps `Kept` entries and keeps the newest entry |
| Profile.MeanOfIdentical | src/profile.rs:40-53 | averaging copies of one vector gives back its coefficients |
| Profile.MeanBounds | src/profile.rs:40-53 | each averaged coefficient lies between its smallest and largest value |
| Profile.Removed | src/profile.rs:106-112 | removing position i keeps everything before it and shifts everything after it down by one |
| Profile.FreshEntryCannotAverage | src/profile.rs:45-48 | an entry with an empty native array and at least one vector cannot be averaged without indexing out of bounds |
| Profile.MfccData.constructor | src/profile.rs:4-9 | a default entry has no name, no vectors and an empty native array |
| Profile.MfccData.AddCalibrationData | src/profile.rs:24-32 | the list grows by the vector exactly when it has 12 coefficients; nothing else changes |
| Profile.MfccData.RemoveOldCalibrationData | src/profile.rs:34-38 | the list keeps its newest min(length, count) entries in order; nothing else changes |
| Profile.MfccData.UpdateNativeArray | src/profile.rs:40-53 | with no vectors nothing changes; otherwise native positions 0..11 become the coefficient means and the rest is kept |
| Profile.MfccData.GetAverage | src/profile.rs:55-57 | the result is one of the stored vectors |
| Profile.Profile.constructor | src/profile.rs:60-79 | every setting is zero and there are no entries |
| Profile.Profile.GetPhoneme | src/profile.rs:89-95 | the result is the name of one of the entries |
| Profile.Profile.AddMfcc | src/profile.rs:97-104 | one fresh entry is appended with `mfcc_data_count` empty vectors, no name and an empty native array; the existing entries and every setting are unchanged |
| Profile.Profile.RemoveMfcc | src/profile.rs:106-112 | an index past the end changes nothing; otherwise that entry is removed and the rest keep their order; every setting is unchanged |
| Profile.Profile.UpdateMfcc | src/profile.rs:114-127 | an index past the end changes nothing; otherwise only that entry changes: add, trim to the count, and average when calibrating |
| Profile.Profile.GetAverages | src/profile.rs:130-132 | the result is the native array of one of the entries |

## Left out

- The signal chain of `execute`, `src/job.rs:42-69`, is not modelled step by step. It covers:
  - `rms`;
  - truncation to 1024 samples, `hamming` and the forward `rfft`;
  - `filter`, the log-power step (`ln(x²)/ln 10`) and `normalize`;
  - the inverse `rfft`, `lifter` and the second forward `rfft`;
  - the two further `normalize` passes with squaring, and the loudness scaling.

  `Job.Job.Execute` instead takes three parameters. `spectrum` is the 513-bin magnitude spectrum, `features` is the vector handed to `get_vowel`, and `rms` is the frame level. The reason is that `rfft`, `fft`, `rms` and `DataPoint::exp` need `sin`, `cos`, `exp`, `ln` and `sqrt`, which real arithmetic in Dafny does not provide.
- `Job.Job.Execute`: the spectrum and feature vector are not tied to `stream`, for the reason above. Its postcondition says nothing about how they derive from the samples.
- `Algorithm.Hamming`: the weight is modelled exactly as written, but the window a cosine would give is not modelled, because Dafny's reals have no cosine.
- `DataPoint::zero` and `INV_32767` are not modelled, because nothing in the source uses them. `INV_LOG10` and `INV_DYNAMIC_RANGE` are not modelled either, because only the signal chain uses them.
- `Job.GetPeaks`: requires threshold ≥ 0. `estimate_vowel` always passes 0.1. A negative threshold would admit a zero first peak, and then the divisor would be the `f32` infinity, which reals do not model.
- The `read_16_bit_samples` decoder is not modelled. It is not called, since `execute` reads floats directly.
- Also not modelled:
  - `create_job` and the `JobMessage` channel protocol, because they are threads and message passing;
  - `src/lip_sync.rs`, `src/lib.rs`, `src/debug.rs`, `src/common.rs` and `src/lip_sync_job.rs`, which are Godot bindings and plumbing;
  - the conversion of `VowelEstimate` into a Godot `Dictionary`.
- `Profile::export`, `import`, `create`, `on_enable` and `on_disable`, and `MfccData::allocate`, `deallocate` and `is_allocated`, are not modelled. They are unimplemented in the source or only construct a default.
- `Profile.MfccData.RemoveOldCalibrationData`: requires count ≥ 0, because the source panics on a negative count.
- `Profile.Profile.UpdateMfcc`: requires two things when the index is in range:
  - a count ≥ 0;
  - when calibrating, vectors and a native array long enough to average.

  Otherwise the source panics.
- `f32` and `f64` rounding, NaN and infinity are not modelled, nor the `as f32` and `as i32` casts of indices. All values are exact reals and all integers are unbounded.
- `Job.Job.EstimateVowel`, and with it `Job.Job.GetVowel` and `Job.Job.Execute`, picks the label with the corrected argmin `Job.ArgMin`, bounded by the number of distances. As written, the scan runs up to 1024 (see Findings), so `execute` never returns on a frame with 3 or 4 peaks: it panics reading `distance_vowel[5]`. The model does not reproduce that panic.
- The random draw of `get_vowel` is modelled as an arbitrary label, with no distribution.

## Findings

| source | as written | input that shows it | evidently intended | confidence | as-written member | corrected member |
|---|---|---|---|---|---|---|
| src/job.rs:215 | the argmin scan over the five label distances runs `while i < FFT_SAMPLES` (1024) | any frame with exactly 3 or 4 peaks: the scan reads `distance_vowel[5]` and panics | bound the scan by the number of distances (5) | not executed | Job.ScanAsWrittenAlwaysPanics | Job.ArgMin |
| src/model.rs:145 | the imaginary part of `Mul` is a·c + b·d | i · i gives (−1, 1) | the complex product's a·d + b·c, so that i · i = −1 | not executed | Model.MulAsWrittenIsNotComplexProduct | Model.ComplexMulSquaresI |
| src/model.rs:162 | the imaginary numerator of `Div` is b·c − b·d | i / i gives (1, −1) | the complex quotient's b·c − a·d, so that (p·q)/q = p | not executed | Model.DivAsWrittenIsNotComplexQuotient | Model.ComplexDivUndoesMul |
