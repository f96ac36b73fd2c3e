# Pitch estimator post-processing, modelled in Dafny

This project models the post-processing pipeline of the Android pitch
estimator's `PitchModelExecutor.execute`. A pretrained pitch model (SPICE, run
through TensorFlow Lite) writes two arrays for an audio clip. They hold a
normalized pitch and an uncertainty for each analysis frame. The executor then
does four things:

1. It sizes both output buffers from the input length. The size is
   `ceil(n / 512.0)` frames for a 32000-sample clip and one more frame for
   every other length.
2. It masks every frame whose confidence (one minus its uncertainty) is below
   90% to the sentinel 0.
3. It converts every filtered pitch to Hz with the model's calibration,
   `FMIN * 2^((v * PT_SLOPE + PT_OFFSET) / BINS_PER_OCTAVE)`. The value 0 stays 0.
4. It computes the chromatic offset of every positive frequency. The offset is
   the distance from the nearest equal-tempered note, measured in semitones
   above C0. It then averages these offsets.

Everything is stated over mathematical reals. `2.0.pow` and `log2` of
kotlin.math are passed in as a `Numerics.Transcendentals` value. Three
predicates state the laws of the real functions: 2^x is positive
(`PowPositive`), 2^x is strictly increasing (`PowIncreasing`), and log2 undoes
2^x (`LogInvertsPow`). Each member requires only the laws it uses. The
pipeline itself needs only positivity. The model inference is a function
parameter `predict` from the input samples to an `Inference`. An `Inference` is either both output arrays
or an exception.

Files:

- `numerics.dfy` (module `Numerics`) holds the transcendental interface,
  `roundToInt`, and `average()` as an optional mean.
- `pitch_model_executor.dfy` (module `PitchModelExecutor`) holds the
  constants, the frame count, the output buffers, the three loops of
  `execute`, the two private helpers, and `Execute` itself.
- `pitch_properties.dfy` (module `PitchProperties`) holds the lemmas that
  relate several calls.

## Behaviour worth noting

- **Frame count.** A 16000-sample clip gets `ceil(31.25) + 1 = 33` frames, and
  `FrameCountExamples` proves it. Only a 32000-sample clip lacks the extra
  frame.
- **Offset range.** `roundToInt` breaks ties toward +infinity: the rounded
  value `k` of `x` satisfies `x - 0.5 < k <= x + 0.5`. A half-way semitone
  position therefore gives -0.5, and offsets lie in [-0.5, 0.5).
- **No length-mismatch path.** Both buffers are allocated with the same
  length, so their lengths can never differ. The filter loop only needs
  `pitches` to be at least as long as `uncertainties`, and that is its
  precondition.
- **Swallowed inference failure.** The code swallows an inference exception
  and carries on with the zero-filled buffers. `OutputBuffers` models that,
  except for partial writes (see Left out). The result is all-zero
  frequencies and no offset.
- **The offset is returned.** The code computes the ideal offset but only
  logs it. `Execute` returns it as a second result so that its properties
  can be stated. An empty offset list is `None`; the code's `average()`
  returns NaN there.

## Model

| member | source | states |
|---|---|---|
| Numerics.RoundToInt | app/src/main/java/com/george/pitch_estimator/PitchModelExecutor.kt:136 | the rounded integer k of x satisfies x - 0.5 < k <= x + 0.5, so it is the nearest integer with ties going up |
| Numerics.Mean | app/src/main/java/com/george/pitch_estimator/PitchModelExecutor.kt:118 | the average is absent exactly when the list is empty |
| Numerics.MeanWithinBounds | app/src/main/java/com/george/pitch_estimator/PitchModelExecutor.kt:118 | the average of a non-empty list with every entry in [lo, hi) lies in [lo, hi) |
| PitchModelExecutor.Hops | app/src/main/java/com/george/pitch_estimator/PitchModelExecutor.kt:50 | the hop count q is the ceiling of n / 512: q - 1 < n / 512 <= q |
| PitchModelExecutor.FrameCount | app/src/main/java/com/george/pitch_estimator/PitchModelExecutor.kt:47-52 | the buffer length is the ceiling of n / 512 when n is 32000, and that ceiling plus one for every other n |
| PitchModelExecutor.OutputBuffers | app/src/main/java/com/george/pitch_estimator/PitchModelExecutor.kt:56-68 | both buffers have the frame-count length; they hold the model's arrays when the call succeeds with that shape, and stay all zero when it throws |
| PitchModelExecutor.FilterByConfidence | app/src/main/java/com/george/pitch_estimator/PitchModelExecutor.kt:81-88 | one output per uncertainty, in order; entry i is pitches[i] when uncertainties[i] <= 0.1 and 0 when uncertainties[i] > 0.1 |
| PitchModelExecutor.ConvertToHz | app/src/main/java/com/george/pitch_estimator/PitchModelExecutor.kt:126-133 | the frequency is never negative, and it is 0 exactly when the pitch is the 0 sentinel; every other pitch gives a strictly positive frequency |
| PitchModelExecutor.ConvertAll | app/src/main/java/com/george/pitch_estimator/PitchModelExecutor.kt:97-100 | the Hz array has the filtered array's length, and entry i is the conversion of filtered entry i |
| PitchModelExecutor.HzToOffset | app/src/main/java/com/george/pitch_estimator/PitchModelExecutor.kt:135-139 | the offset lies in [-0.5, 0.5) and differs from the frequency's semitone position above C0 by a whole number of semitones |
| PitchModelExecutor.PositiveIndices | app/src/main/java/com/george/pitch_estimator/PitchModelExecutor.kt:108-109 | no more indices than entries; every listed index is in range and names a strictly positive frequency |
| PitchModelExecutor.PositiveIndicesExact | app/src/main/java/com/george/pitch_estimator/PitchModelExecutor.kt:108-111 | the listed indices are strictly increasing, and every strictly positive frequency's index is listed |
| PitchModelExecutor.OffsetsOf | app/src/main/java/com/george/pitch_estimator/PitchModelExecutor.kt:107-111 | the offset list has one entry per positive frequency; entry j is the offset of the frequency at the j-th positive index |
| PitchModelExecutor.CollectOffsets | app/src/main/java/com/george/pitch_estimator/PitchModelExecutor.kt:107-111 | the loop builds exactly the in-order offset list of the positive frequencies |
| PitchModelExecutor.Execute | app/src/main/java/com/george/pitch_estimator/PitchModelExecutor.kt:44-124 | the result has frame-count length; frequency i comes from frame i's masked pitch; it is positive exactly when frame i is confident with a non-zero pitch; the ideal offset is the mean of the positive frequencies' offsets; it is absent exactly when every frequency is 0 (always so after a failed inference) and otherwise lies in [-0.5, 0.5) |
| PitchProperties.FrameCountExamples | app/src/main/java/com/george/pitch_estimator/PitchModelExecutor.kt:48-52 | 32000 samples give 63 frames, 16000 give 33, and 0 give 1 |
| PitchProperties.HzIncreasing | app/src/main/java/com/george/pitch_estimator/PitchModelExecutor.kt:126-133 | among non-zero pitches, the Hz conversion is strictly increasing |
| PitchProperties.HzDeterminesPitch | app/src/main/java/com/george/pitch_estimator/PitchModelExecutor.kt:128-129 | inverting the calibration on the frequency of a non-zero pitch recovers that pitch |
| PitchProperties.OffsetOfEqualTemperedNote | app/src/main/java/com/george/pitch_estimator/PitchModelExecutor.kt:135-139 | a frequency exactly k semitones above C0 (C0 * 2^(k/12)) is positive and has offset 0 |

## Left out

- Interpreter construction, the GPU delegate, the thread count, model-file
  loading and `close` (lines 19-33 and 141-174) are left out. They only bind a
  foreign library and do I/O. The inference call is the `predict` parameter.
- Logging and the `predictTime` timing are left out. They are observability
  only.
- Float32 and float64 arithmetic is left out. This covers the
  `Float`/`Double` conversions, the inexactness of `1 - 0.1f` against `0.9`,
  and the concrete values of `pow` and `log2`. The model works over exact reals
  with the stated laws of 2^x and log2 instead of numeric values.
- Numerics.RoundToInt: leaves out the clamping of `roundToInt` to the 32-bit
  `Int` range and its exception on NaN. Neither can occur for a positive
  finite frequency.
- PitchModelExecutor.OutputBuffers: treats any failed call as leaving both
  buffers all zero. A call that fails after writing part of an output is not
  modelled. An output of the wrong shape counts as a failure, because the
  interpreter rejects it with an exception.
