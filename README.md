# Integer stages of a JPEG-style 8x8 block pipeline

This project models the block stages of `compression.js` that use no trigonometry. The script cuts
an image into 8x8 blocks of RGBA samples. For each block it derives a quantization table from a
quality value, level-shifts the samples, transforms them with a DCT, quantizes, and then undoes
every step so the viewer sees the loss.

- `quantization_table.dfy` (module `QuantizationTable`). The base table is the luminance table of
  ITU-T T.81 (ISO/IEC 10918-1), Annex K, Table K.1. The source's real-valued form of the IJG quality
  scaling is written twice: as the source computes it over reals (`ReferenceValue`), and over
  integers (`QuantizationValue`). libjpeg truncates `5000 / quality` to an integer; the source
  does not, so e.g. quality 3 on base 121 gives 2017 here and 2016 in libjpeg.
  A lemma proves the two agree. A zero result is raised to 1.
- `samples.dfy` (module `Samples`) says what each stage does to one channel value:
  - the level shift of section A.3.1 of ITU-T T.81, clipped at 255 from above only;
  - quantization by a step with JavaScript's `Math.round` (round half toward +infinity), as in
    section A.3.4 of ITU-T T.81;
  - dequantization by the same step.
- `compression.dfy` (module `Compression`) has the code that changes state in place:
  - class `Compressor` holds the global `adjustedQuantizationTable` as an `array2<int>`;
  - the block is an `array3<real>` indexed `[x, y, channel]`;
  - `Normalize`, `Quantize` and `Dequantize` keep the source's triple loops, with the channel
    loop outermost. They touch channels 0 to 2 only.
  - `Normalize` runs over the literal 8x8 grid. `Quantize` and `Dequantize` run to the block's own
    dimensions.
  - `Operate` runs the stages in the order `operate` uses, with the two transforms removed.

Samples are `real` because the DCT output that `quantize` reads is fractional. The quality value
is a parameter of `Operate`, not a global read from the page.

## Model

| member | source | states |
|---|---|---|
| `QuantizationTable.ScaleFactor` | compression.js:116 | S lies in [0, 5000]; below quality 50 it is the exact quotient with S * quality = 5000 and S > 100; from 50 on S = 200 - 2*quality and S <= 100 |
| `QuantizationTable.ReferenceValue` | compression.js:120 | the source's real-valued cell before the zero is raised: the non-negative integer r with r <= (S*base + 50)/100 < r + 1 |
| `QuantizationTable.QuantizationValue` | compression.js:116-124 | each cell is at least 1, and equals the source's real-valued `Math.floor((S*base+50)/100)` once a zero is raised to 1 |
| `QuantizationTable.IntegerFormulaIsReference` | compression.js:116-120 | for every quality in [1,100] and every base value, the real formula equals the integer one: `(5000*b + 50*q) div (100*q)` below 50, `((200-2q)*b + 50) div 100` from 50 on |
| `QuantizationTable.AdjustedTable` | compression.js:115-127 | the derived grid is 8x8 and every entry is a step of at least 1 |
| `QuantizationTable.ScaleFactorMonotone` | compression.js:116 | the scale factor S is non-negative and does not increase as quality rises, across the switch at 50 as well |
| `QuantizationTable.QuantizationValueMonotone` | compression.js:116-124 | a lower quality never gives a smaller step for the same base value |
| `QuantizationTable.AdjustedTableMonotone` | compression.js:115-127 | if q1 <= q2 then every cell of the table for q1 is at least the cell of the table for q2 |
| `QuantizationTable.QuantizationValueAtQuality50` | compression.js:116-124 | at quality 50 a positive base value comes back unchanged |
| `QuantizationTable.QuantizationValueAtQuality100` | compression.js:116-124 | at quality 100 every value is 1 (S = 0, and the zero is raised) |
| `QuantizationTable.AdjustedTableAtQuality50` | compression.js:20-29 | the table for quality 50 equals the standard table cell for cell |
| `QuantizationTable.AdjustedTableAtQuality100` | compression.js:115-127 | every cell of the table for quality 100 is 1 |
| `Samples.RoundHalfUp` | compression.js:220 | `Math.round` gives the integer k with k - 1/2 <= r < k + 1/2, so a tie goes up |
| `Samples.LevelShift` | compression.js:147-156 | the shifted value is the minimum of v + 128*factor and 255 |
| `Samples.QuantizeSample` | compression.js:220 | the stored value is an integer within half a unit of v / step, with a tie going up |
| `Samples.LevelShiftNoLowerClip` | compression.js:154-156 | a result at or below 255 is only shifted, even when it is negative: there is no lower clip |
| `Samples.LevelShiftRoundTrip` | compression.js:143-159 | shifting by -1 and then by 1 restores every value in [0,255] |
| `Samples.DequantizeSample` | compression.js:235 | the product of a value and its step: dividing it by a non-zero step gives the value back, and a step of 1 leaves the value alone |
| `Samples.Reconstruct` | compression.js:91-99 | one channel value through normalize(-1), quantize, dequantize and normalize(1), without the transforms; the result never exceeds 255 |
| `Samples.DequantizeQuantizeError` | compression.js:216-239 | dequantizing a quantized value lands in (v - step/2, v + step/2] |
| `Samples.UnitStepIsExact` | compression.js:216-239 | with step 1, quantize then dequantize is the identity on integer values |
| `Samples.ReconstructError` | compression.js:91-99 | a value in [0,255] taken through normalize(-1), quantize, dequantize and normalize(1) comes back within half a step |
| `Samples.ReconstructExactAtUnitStep` | compression.js:91-99 | with step 1 that chain gives back every integer value in [0,255] exactly |
| `Compression.InitializeEmptyMatrix` | compression.js:288-298 | the matrix built by pushes has 8 rows of 8 zeros |
| `Compression.Normalize` | compression.js:143-160 | channels 0-2 of the 64 samples become LevelShift(v, factor); channel 3 and every cell outside the 8x8 grid keep their values |
| `Compression.Compressor.constructor` | compression.js:31 | the global table starts as a fresh 8x8 zero matrix |
| `Compression.Compressor.CalculateQuantizationTable` | compression.js:115-127 | all 64 cells are overwritten with the table for `quality`, each at least 1; when the table already held that, nothing changes |
| `Compression.Compressor.Quantize` | compression.js:216-224 | channels 0-2 of every sample within the block's own dimensions become QuantizeSample(v, table[x][y]); other channels are unchanged |
| `Compression.Compressor.Dequantize` | compression.js:231-239 | channels 0-2 of every sample within the block's own dimensions become v * table[x][y]; other channels are unchanged |
| `Compression.Compressor.Operate` | compression.js:88-101 | after the stages the table holds the table for `quality`; channels 0-2 of each sample are Reconstruct(v, table[x][y]); channel 3 is unchanged |
| `Compression.CoveredStagesLosslessAtQuality100` | compression.js:88-101 | at quality 100 the covered stages give back every integer sample in [0,255] exactly |
| `Compression.CoveredStagesWithinHalfStep` | compression.js:88-101 | at any quality a sample in [0,255] comes back within half the step at its (x, y) |

## Left out

- `dct` and `inversedct` (compression.js:167-205, 247-286) are not modelled. They are floating-point sums of `Math.cos` and `Math.sqrt` terms. `Operate` therefore goes straight from `Quantize` to `Dequantize`. Its contract, `CoveredStagesLosslessAtQuality100` and `CoveredStagesWithinHalfStep` describe the pipeline without those two stages. This includes the `Math.round` that `inversedct` applies at line 276.
- `compress` (compression.js:42-86) is not modelled. It covers canvas reads and writes, scheduling with `setTimeout`, the shared `section` variable, progress text, and the final `Math.round` write-back at line 72.
- The quality comes from a DOM input as a string (compression.js:47). Here it is an `int` that must lie in [1,100]. The source has no guard: quality 0 divides by zero and a quality above 100 gives a negative S.
- Image loading, `render` and the button handlers (compression.js:1-14, 33-36, 300-307) are not modelled.
- Arithmetic is exact. IEEE-754 rounding of `5000 / quality`, of `v / step` and of the products is not modelled. The real formula and the integer formula are equal in exact arithmetic only.
- A block is a rectangular `array3`. JavaScript's nested arrays could be jagged, with a different `section[x].length` per row. That case is not represented.
- `Compression.Compressor.Quantize` and `Compression.Compressor.Dequantize` require the block to be at most 8x8. The source also accepts larger blocks, with two error paths. For x >= 8, `adjustedQuantizationTable[x]` is undefined, so lines 220 and 235 throw a TypeError. A row longer than 8 stores NaN. The only caller, `operate`, passes an 8x8 block, so the model leaves both cases out.
- `Compression.Compressor.Quantize` requires every stored step to be at least 1. That holds after `CalculateQuantizationTable`. The zero matrix the table starts as would make the source divide by zero.
- Three behaviours are kept as the code has them, although a JPEG-style pipeline is often described otherwise:
  - the stages loop over channels 0-2 only, so alpha is left alone;
  - `quantize` and `dequantize` are bounded by the block's own dimensions;
  - no rejection of an out-of-range quality is modelled: in the model, a quality in [1,100] is an obligation on the caller (a `requires`), and there is no runtime check.
