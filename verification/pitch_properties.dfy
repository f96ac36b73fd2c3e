/** Properties of the pitch executor's pipeline that relate several calls:
    the frame counts of the two documented clip lengths, the Hz conversion's
    monotonicity and its inverse, and the zero offset of equal-tempered
    notes. */
module PitchProperties {
  import opened Numerics
  import opened PitchModelExecutor

  /** A 32000-sample clip gives 63 frames; a 16000-sample clip gets the extra
      frame and gives ceil(31.25) + 1 = 33; an empty input still gives one frame. */
  lemma FrameCountExamples()
    ensures FrameCount(32000) == 63
    ensures FrameCount(16000) == 33
    ensures FrameCount(0) == 1
  {
  }

  /** Among non-zero pitches, a higher normalized pitch always gives a
      strictly higher frequency. */
  lemma HzIncreasing(t: Transcendentals, v1: real, v2: real)
    requires PowPositive(t) && PowIncreasing(t)
    requires v1 != 0.0 && v2 != 0.0
    requires v1 < v2
    ensures ConvertToHz(t, v1) < ConvertToHz(t, v2)
  {
    assert CqtBin(v1) / BinsPerOctave < CqtBin(v2) / BinsPerOctave;
  }

  /** The frequency of a non-zero pitch determines the pitch: inverting the
      calibration recovers the normalized value. */
  lemma HzDeterminesPitch(t: Transcendentals, value: real)
    requires PowPositive(t) && LogInvertsPow(t)
    requires value != 0.0
    ensures (BinsPerOctave * t.log2(ConvertToHz(t, value) / Fmin) - PtOffset) / PtSlope == value
  {
    var octaves := CqtBin(value) / BinsPerOctave;
    assert ConvertToHz(t, value) / Fmin == t.pow2(octaves);
    assert t.log2(t.pow2(octaves)) == octaves;
  }

  /** A frequency exactly k equal-tempered semitones above C0 has offset 0. */
  lemma OffsetOfEqualTemperedNote(t: Transcendentals, k: int)
    requires PowPositive(t) && LogInvertsPow(t)
    ensures C0 * t.pow2(k as real / SemitonesPerOctave) > 0.0
    ensures HzToOffset(t, C0 * t.pow2(k as real / SemitonesPerOctave)) == 0.0
  {
    var octaves := k as real / SemitonesPerOctave;
    var hz := C0 * t.pow2(octaves);
    assert t.pow2(octaves) > 0.0;
    assert hz / C0 == t.pow2(octaves);
    assert SemitonesAboveC0(t, hz) == k as real;
    RoundToIntOfWhole(k);
  }
}
