/** The post-processing pipeline of `PitchModelExecutor.execute`: from the two
    arrays the pitch model writes (normalized pitch and uncertainty, one entry
    per analysis frame) to confidence-filtered pitches in Hz and the average
    chromatic offset of the sung melody.

    The model inference itself is an opaque function `predict` from the input
    samples to an `Inference`; the transcendental functions come in as a
    `Transcendentals` value, and each member requires only the laws of 2^x
    and log2 it relies on. */
module PitchModelExecutor {
  import opened Numerics

  // Calibration of the model's output space (the companion object).
  const PtOffset: real := 25.58
  const PtSlope: real := 63.07
  const Fmin: real := 10.0
  const BinsPerOctave: real := 12.0
  /** Frequency of the note C in octave 0, the tuning reference. */
  const C0: real := 16.351597831287414

  /** Samples per analysis frame, the divisor in the frame count. */
  const HopSize: nat := 512
  /** The one input length that gets no extra frame. */
  const FullClipSize: nat := 32000
  /** Minimum confidence, one minus uncertainty, for a pitch to be kept. */
  const ConfidenceThreshold: real := 0.9
  /** Semitones per octave in the offset formula. */
  const SemitonesPerOctave: real := 12.0

  // ---------------------------------------------------------------------
  // Frame count and output buffers
  // ---------------------------------------------------------------------

  /** `ceil(n / 512.0)`: the number of hops needed to cover n samples. */
  function Hops(n: nat): (q: nat)
    ensures (q as real) - 1.0 < (n as real) / (HopSize as real) <= q as real
  {
    (n + HopSize - 1) / HopSize
  }

  /** Length of both output buffers for an input of `inputSize` samples:
      `ceil(inputSize / 512.0)` for a full 32000-sample clip and one more for
      every other length. */
  function FrameCount(inputSize: nat): (frames: nat)
    ensures inputSize == FullClipSize ==>
      (frames as real) - 1.0 < (inputSize as real) / (HopSize as real) <= frames as real
    ensures inputSize != FullClipSize ==>
      (frames as real) - 2.0 < (inputSize as real) / (HopSize as real) <= (frames as real) - 1.0
  {
    if inputSize == FullClipSize then Hops(inputSize) else Hops(inputSize) + 1
  }

  /** What the interpreter call leaves behind: the two output arrays it
      produced, or an exception. */
  datatype Inference = Produced(pitches: seq<real>, uncertainties: seq<real>) | Failed

  /** The two pre-allocated output buffers after the interpreter call. */
  datatype Buffers = Buffers(pitches: seq<real>, uncertainties: seq<real>)

  /** An inference result fits buffers of `frames` entries. */
  predicate Fits(inference: Inference, frames: nat) {
    inference.Produced? && |inference.pitches| == frames && |inference.uncertainties| == frames
  }

  /** The buffers start zero-filled; a successful call overwrites both with
      the model's output, and a failed one (an exception, including an output
      of the wrong shape) is swallowed and leaves them zero. */
  function OutputBuffers(frames: nat, inference: Inference): (b: Buffers)
    ensures |b.pitches| == frames && |b.uncertainties| == frames
    ensures Fits(inference, frames) ==>
      b.pitches == inference.pitches && b.uncertainties == inference.uncertainties
    ensures !Fits(inference, frames) ==>
      forall i :: 0 <= i < frames ==> b.pitches[i] == 0.0 && b.uncertainties[i] == 0.0
  {
    if Fits(inference, frames) then Buffers(inference.pitches, inference.uncertainties)
    else Buffers(seq(frames, _ => 0.0), seq(frames, _ => 0.0))
  }

  // ---------------------------------------------------------------------
  // Confidence filter
  // ---------------------------------------------------------------------

  /** A frame is confident when one minus its uncertainty reaches 90%. */
  predicate Confident(uncertainty: real) {
    1.0 - uncertainty >= ConfidenceThreshold
  }

  /** One frame through the filter: its pitch if confident, else 0. */
  function Masked(pitch: real, uncertainty: real): real {
    if Confident(uncertainty) then pitch else 0.0
  }

  /** The confidence loop: one output per uncertainty, in order, holding the
      frame's pitch when its uncertainty is at most 0.1 and 0 otherwise. */
  method FilterByConfidence(pitches: seq<real>, uncertainties: seq<real>) returns (filtered: seq<real>)
    requires |uncertainties| <= |pitches|
    ensures |filtered| == |uncertainties|
    ensures forall i :: 0 <= i < |filtered| && uncertainties[i] <= 0.1 ==> filtered[i] == pitches[i]
    ensures forall i :: 0 <= i < |filtered| && uncertainties[i] > 0.1 ==> filtered[i] == 0.0
  {
    filtered := [];
    for i := 0 to |uncertainties|
      invariant |filtered| == i
      invariant forall k :: 0 <= k < i ==> filtered[k] == Masked(pitches[k], uncertainties[k])
    {
      if 1.0 - uncertainties[i] >= ConfidenceThreshold {
        filtered := filtered + [pitches[i]];
      } else {
        filtered := filtered + [0.0];
      }
    }
  }

  // ---------------------------------------------------------------------
  // Pitch to Hz
  // ---------------------------------------------------------------------

  /** The constant-Q bin a normalized pitch stands for. */
  function CqtBin(value: real): real {
    value * PtSlope + PtOffset
  }

  /** `convertToAbsolutePitchValuesInHz`: 0 is the "no pitch" sentinel and
      stays 0; every other value becomes a strictly positive frequency. */
  function ConvertToHz(t: Transcendentals, value: real): (hz: real)
    requires PowPositive(t)
    ensures hz >= 0.0
    ensures hz == 0.0 <==> value == 0.0
  {
    if value != 0.0 then Fmin * t.pow2(CqtBin(value) / BinsPerOctave) else 0.0
  }

  /** The conversion loop: one frequency per filtered pitch, index by index. */
  method ConvertAll(t: Transcendentals, filtered: seq<real>) returns (hertzValues: seq<real>)
    requires PowPositive(t)
    ensures |hertzValues| == |filtered|
    ensures forall i :: 0 <= i < |filtered| ==> hertzValues[i] == ConvertToHz(t, filtered[i])
  {
    hertzValues := [];
    for i := 0 to |filtered|
      invariant |hertzValues| == i
      invariant forall k :: 0 <= k < i ==> hertzValues[k] == ConvertToHz(t, filtered[k])
    {
      hertzValues := hertzValues + [ConvertToHz(t, filtered[i])];
    }
  }

  // ---------------------------------------------------------------------
  // Chromatic offset
  // ---------------------------------------------------------------------

  /** Distance of a frequency from C0 in (fractional) semitones. */
  function SemitonesAboveC0(t: Transcendentals, hz: real): real {
    SemitonesPerOctave * t.log2(hz / C0)
  }

  predicate IsWhole(x: real) {
    x.Floor as real == x
  }

  /** `hzToOffset`: how far a frequency lies from the nearest equal-tempered
      note, in semitones. The result differs from the semitone position by a
      whole number of semitones and lies in [-0.5, 0.5): an exact half-way
      position rounds up, giving -0.5. */
  function HzToOffset(t: Transcendentals, hz: real): (offset: real)
    requires hz > 0.0
    ensures -0.5 <= offset < 0.5
    ensures IsWhole(SemitonesAboveC0(t, hz) - offset)
  {
    var semitones := SemitonesAboveC0(t, hz);
    var nearest := RoundToInt(semitones);
    assert semitones - (semitones - nearest as real) == nearest as real;
    assert IsWhole(nearest as real);
    semitones - nearest as real
  }

  /** Indices of the strictly positive entries, in increasing order. */
  function PositiveIndices(hz: seq<real>): (idx: seq<nat>)
    ensures |idx| <= |hz|
    ensures forall j :: 0 <= j < |idx| ==> idx[j] < |hz| && hz[idx[j]] > 0.0
    decreases |hz|
  {
    if |hz| == 0 then []
    else
      var rest := PositiveIndices(hz[..|hz| - 1]);
      if hz[|hz| - 1] > 0.0 then rest + [|hz| - 1] else rest
  }

  /** `PositiveIndices` lists every strictly positive entry, each once and in
      increasing order. */
  lemma {:induction false} PositiveIndicesExact(hz: seq<real>)
    ensures forall j, k :: 0 <= j < k < |PositiveIndices(hz)| ==> PositiveIndices(hz)[j] < PositiveIndices(hz)[k]
    ensures forall i :: 0 <= i < |hz| && hz[i] > 0.0 ==> i in PositiveIndices(hz)
    decreases |hz|
  {
    if |hz| > 0 {
      var init := hz[..|hz| - 1];
      PositiveIndicesExact(init);
      forall i | 0 <= i < |hz| && hz[i] > 0.0
        ensures i in PositiveIndices(hz)
      {
        if i < |hz| - 1 {
          assert init[i] == hz[i];
        }
      }
    }
  }

  /** The offsets of the strictly positive frequencies, in order: entry j is
      the offset of the frequency at the j-th positive index. */
  function OffsetsOf(t: Transcendentals, hz: seq<real>): (offsets: seq<real>)
    ensures |offsets| == |PositiveIndices(hz)|
    ensures forall j :: 0 <= j < |offsets| ==>
      offsets[j] == HzToOffset(t, hz[PositiveIndices(hz)[j]])
    decreases |hz|
  {
    if |hz| == 0 then []
    else
      var rest := OffsetsOf(t, hz[..|hz| - 1]);
      if hz[|hz| - 1] > 0.0 then rest + [HzToOffset(t, hz[|hz| - 1])] else rest
  }

  /** The offset loop: it collects the offsets of the positive frequencies. */
  method CollectOffsets(t: Transcendentals, hz: seq<real>) returns (offsets: seq<real>)
    ensures offsets == OffsetsOf(t, hz)
  {
    offsets := [];
    for i := 0 to |hz|
      invariant offsets == OffsetsOf(t, hz[..i])
    {
      assert hz[..i + 1][..i] == hz[..i];
      if hz[i] > 0.0 {
        offsets := offsets + [HzToOffset(t, hz[i])];
      }
    }
    assert hz[..|hz|] == hz;
  }

  // ---------------------------------------------------------------------
  // The whole pipeline
  // ---------------------------------------------------------------------

  /** `execute`: both buffers get `FrameCount` entries; every frequency comes
      from the masked pitch of the same frame and is positive exactly when
      that frame is confident with a non-zero pitch; the ideal offset is the
      mean of the offsets of the positive frequencies, absent exactly when no
      frequency is positive, and otherwise within [-0.5, 0.5). */
  method Execute(t: Transcendentals, predict: seq<real> -> Inference, samples: seq<real>)
    returns (hertzValues: seq<real>, idealOffset: Option<real>)
    requires PowPositive(t)
    ensures |hertzValues| == FrameCount(|samples|)
    ensures var raw := OutputBuffers(FrameCount(|samples|), predict(samples));
      && |hertzValues| == |raw.pitches|
      && forall i :: 0 <= i < |hertzValues| ==>
           hertzValues[i] == ConvertToHz(t, Masked(raw.pitches[i], raw.uncertainties[i]))
    ensures var raw := OutputBuffers(FrameCount(|samples|), predict(samples));
      && |hertzValues| == |raw.pitches|
      && forall i :: 0 <= i < |hertzValues| ==>
           (hertzValues[i] > 0.0 <==> Confident(raw.uncertainties[i]) && raw.pitches[i] != 0.0)
    ensures idealOffset == Mean(OffsetsOf(t, hertzValues))
    ensures idealOffset.None? <==> forall i :: 0 <= i < |hertzValues| ==> hertzValues[i] == 0.0
    ensures idealOffset.Some? ==> -0.5 <= idealOffset.value < 0.5
    ensures !Fits(predict(samples), FrameCount(|samples|)) ==> idealOffset.None?
  {
    var outputSize := FrameCount(|samples|);
    var raw := OutputBuffers(outputSize, predict(samples));
    var filtered := FilterByConfidence(raw.pitches, raw.uncertainties);
    hertzValues := ConvertAll(t, filtered);
    var offsets := CollectOffsets(t, hertzValues);
    idealOffset := Mean(offsets);

    PositiveIndicesExact(hertzValues);
    if idealOffset.Some? {
      MeanWithinBounds(offsets, -0.5, 0.5);
    }
  }
}
