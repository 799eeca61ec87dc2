/** What the pipeline's stages do to one channel value of one sample. */
module Samples {

  /** JavaScript's Math.round over exact reals: the nearest integer, a tie going toward +infinity. */
  function RoundHalfUp(r: real): (k: int)
    ensures k as real - 0.5 <= r < k as real + 0.5
  {
    (r + 0.5).Floor
  }

  /** The level shift of normalize: add 128 * factor, then clip at 255 from above only. */
  function LevelShift(v: real, factor: int): (w: real)
    ensures w <= 255.0 && w <= v + (128 * factor) as real
    ensures w == v + (128 * factor) as real || w == 255.0
  {
    var shifted := v + (128 * factor) as real;
    if shifted > 255.0 then 255.0 else shifted
  }

  /** One channel value divided by its step and rounded, as quantize stores it. */
  function QuantizeSample(v: real, step: int): (q: real)
    requires step >= 1
    ensures q == q.Floor as real
    ensures q - 0.5 <= v / step as real < q + 0.5
  {
    RoundHalfUp(v / step as real) as real
  }

  /** One channel value multiplied by its step, as dequantize stores it. */
  function DequantizeSample(q: real, step: int): (r: real)
    ensures step != 0 ==> r / step as real == q
    ensures step == 1 ==> r == q
  {
    q * step as real
  }

  /** A channel value after the stages of operate that this model covers:
      normalize(-1), quantize, dequantize, normalize(1). */
  function Reconstruct(v: real, step: int): (r: real)
    requires step >= 1
    ensures r <= 255.0
  {
    LevelShift(DequantizeSample(QuantizeSample(LevelShift(v, -1), step), step), 1)
  }

  /** The shift applies no lower clip: a value that stays at or below 255 is only shifted. */
  lemma LevelShiftNoLowerClip(v: real, factor: int)
    requires v + (128 * factor) as real <= 255.0
    ensures LevelShift(v, factor) == v + (128 * factor) as real
  {
  }

  /** normalize(-1) followed by normalize(1) restores every value in [0, 255]. */
  lemma LevelShiftRoundTrip(v: real)
    requires 0.0 <= v <= 255.0
    ensures LevelShift(LevelShift(v, -1), 1) == v
  {
  }

  /** Multiplying a real inequality by a positive step. */
  lemma ScaleBounds(lo: real, x: real, hi: real, t: real)
    requires t > 0.0 && lo <= x < hi
    ensures lo * t <= x * t < hi * t
  {
  }

  /** Dequantizing a quantized value misses the original by at most half a step. */
  lemma DequantizeQuantizeError(v: real, step: int)
    requires step >= 1
    ensures var w := DequantizeSample(QuantizeSample(v, step), step);
      v - step as real / 2.0 < w <= v + step as real / 2.0
  {
    var t := step as real;
    var q := QuantizeSample(v, step);
    ScaleBounds(q - 0.5, v / t, q + 0.5, t);
    assert (v / t) * t == v;
    assert (q - 0.5) * t == q * t - t / 2.0;
    assert (q + 0.5) * t == q * t + t / 2.0;
  }

  /** With a step of 1, quantize then dequantize is the identity on integer values. */
  lemma UnitStepIsExact(k: int)
    ensures DequantizeSample(QuantizeSample(k as real, 1), 1) == k as real
  {
    var q := QuantizeSample(k as real, 1);
    assert k as real / 1 as real == k as real;
    var n := q.Floor;
    assert n as real - 0.5 <= k as real < n as real + 0.5;
    assert n == k;
  }

  /** A value in [0, 255] comes back within half a step. */
  lemma ReconstructError(v: real, step: int)
    requires 0.0 <= v <= 255.0 && step >= 1
    ensures v - step as real / 2.0 < Reconstruct(v, step) <= v + step as real / 2.0
  {
    var shifted := LevelShift(v, -1);
    assert shifted == v - 128.0;
    DequantizeQuantizeError(shifted, step);
  }

  /** An integer value in [0, 255] comes back exactly when the step is 1. */
  lemma ReconstructExactAtUnitStep(k: int)
    requires 0 <= k <= 255
    ensures Reconstruct(k as real, 1) == k as real
  {
    UnitStepIsExact(k - 128);
  }
}
