# fft-to-color: a Dafny model of the signal path

`fft-to-color.py` is a MicroPython program for a microcontroller. It reads a
window of 64 samples from a 16-bit ADC and gates it on the window's RMS volume.
It then transforms the window with a hand-written FFT and plots either the
spectrum or the raw waveform on a 128 x 64 display. This project models the
computational core of that program and proves properties of the model:

- `fft_pure_python` (module `Spectrum`): the power-of-two length guard; the
  removal of the window's mean; the in-place reordering loop with its XOR walk
  and swaps; and the in-place butterfly passes. `FftPurePython` runs them on an
  array in the order the source does. Its result is one of three outcomes: the
  `None` of the guard, the division by zero of an empty window, or the
  transformed list.
- `calculate_rms` (module `Rms`): the quantity under the square root, which is
  the population mean-square deviation of the window.
- `draw_frequency_plot` and `draw_time_plot` (module `Plot`): where every point
  lands on the display, and the line segments between consecutive points.
  Each `display.line` call becomes one returned `Segment`.

`Config` holds the constants the functions read. `Bits` gives Python's `&` and
`^` on non-negative integers, and the power-of-two facts the guard needs.
`Arith` holds facts about integer division and aligned blocks. `Samples` gives
Python's `sum` and the mean.

The model follows the code as written, which does not always match its
comments:

- The routine's comment calls the reordering a bit-reversal permutation, but
  the loop computes something else. Its inner `while` runs only in the first
  round: it sets `i` to N/2 and never changes it afterwards. The swaps then
  rotate the block N/2 .. N-2 one place to the right and leave the lower half
  in place (`Reordered`, `ReorderedKeepsLowerHalf`, `ReorderedEight`).
- The docstring names Cooley-Tukey, but the twiddle `w` is set to 1 before
  every block and is multiplied by `w_step` only after the block's last
  butterfly. So every butterfly multiplies by exactly 1, and the passes only
  add and subtract. `SineOverFour` shows the effect on one period of a sine:
  the output lands in bins 2 and 3, where a Fourier transform puts it in bins
  1 and 3.
- The empty window passes the guard, because `0 & -1` is 0. It then divides
  by zero when it takes the mean.

Proved of the routine as written, with every twiddle equal to 1:

- the reordering is a permutation;
- the butterflies of a pass stay inside the window and touch disjoint pairs;
- the first output is the sum of the window, so once the mean is removed the
  DC bin is exactly zero;
- a constant window gives an all-zero spectrum.

A correct transform would also have the last three properties, since bin 0
multiplies by twiddle 1 in every pass. Only the passes as written are modelled
and proved, though.

## Model

| member | source | states |
|---|---|---|
| Bits.And | fft-to-color.py:122 | Python's `&` on non-negative integers; the result is at most either operand |
| Bits.AndPredecessorZeroIffPow2 | fft-to-color.py:122 | for n >= 1, `n & (n - 1)` is 0 if and only if n is a power of two |
| Spectrum.GuardRejectsExactlyNonPowersOfTwo | fft-to-color.py:121-123 | the guard returns `None` exactly for the lengths n >= 1 that are not powers of two; it lets 0 through |
| Spectrum.Mul | fft-to-color.py:149 | the complex product; multiplying by the twiddle 1 leaves the sample unchanged |
| Spectrum.Centered | fft-to-color.py:125-126 | one complex value per sample, and the values after the mean is removed sum to exactly zero |
| Spectrum.SumDeviations | fft-to-color.py:125-126 | the deviations from m sum to the window's sum less N times m, with imaginary part 0 |
| Spectrum.CenteredConstantIsZero | fft-to-color.py:125-126 | a window of equal samples becomes all zeros once the mean is removed |
| Spectrum.XorWalk | fft-to-color.py:131-134 | the inner XOR loop always leaves i at N/2, whether it starts from 0 (the first round) or from N/2 (every later round) |
| Spectrum.SwapStep | fft-to-color.py:135-136 | the swap of positions N/2 and j extends the rotated block by one position |
| Spectrum.ReorderRound | fft-to-color.py:130-136 | after round j, i is N/2, and the array holds the original with the block from N/2 up to j rotated one place right (a single position, so nothing moved, while j <= N/2) |
| Spectrum.Reorder | fft-to-color.py:129-136 | the loop leaves the array equal to `Reordered` of its old contents, for every length including 0 |
| Spectrum.ReorderedIsPermutation | fft-to-color.py:129-136 | the reordering keeps the length and the multiset of elements |
| Spectrum.ReorderedKeepsLowerHalf | fft-to-color.py:129-136 | positions below N/2 and the last position keep their element; for N <= 4 nothing moves, so the loop is not bit reversal |
| Spectrum.ReorderedEight | fft-to-color.py:129-136 | for N = 8 the order is 0 1 2 3 6 4 5 7, not the bit-reversed 0 4 2 6 1 5 3 7 |
| Spectrum.SumCReordered | fft-to-color.py:129-136 | the reordering does not change the sum of the values |
| Spectrum.ButterflyIndicesInRange | fft-to-color.py:144-148 | every butterfly's k = i + j and l = k + size/2 satisfy k < l < N |
| Spectrum.ButterfliesDisjoint | fft-to-color.py:144-148 | two different butterflies of one pass touch disjoint pairs of positions |
| Spectrum.PassPair | fft-to-color.py:146-151 | after a pass, k holds a + b and l holds a - b, where a and b are the old values at k and l |
| Spectrum.BlockStateStep | fft-to-color.py:147-151 | before butterfly j, positions k and l still hold their values from the start of the block, and the butterfly advances the block by one pair |
| Spectrum.ButterflyBlock | fft-to-color.py:145-151 | one block's butterflies turn each pair (x, y) half a block apart into (x + y, x - y), leaving the rest of the array alone |
| Spectrum.ButterflyPass | fft-to-color.py:144-151 | the blocks at 0, size, 2 size, ... together apply one whole pass |
| Spectrum.Butterflies | fft-to-color.py:139-153 | the doubling loop applies the passes for size = 2, 4, ..., N |
| Spectrum.PassesFirstIsSum | fft-to-color.py:139-153 | after all passes, position 0 holds the sum of the whole input |
| Spectrum.PassesOfZeros | fft-to-color.py:139-153 | the passes map an all-zero array to an all-zero array |
| Spectrum.SineOverFour | fft-to-color.py:125-153 | the window 0, 1, 0, -1, centred, reordered and passed through the butterflies, becomes 0, 0, 2, -2 |
| Spectrum.DcBinIsZero | fft-to-color.py:125-153 | for every power-of-two window, bin 0 of the result is exactly zero |
| Spectrum.ConstantWindowGivesZeroSpectrum | fft-to-color.py:125-153 | a window of equal samples, at any DC level, gives an all-zero spectrum |
| Spectrum.FftPurePython | fft-to-color.py:119-154 | the result is `None` exactly for non-power-of-two lengths n >= 1 and a division by zero exactly for the empty window; otherwise it is the reordered, centred window after all passes |
| Samples.MeanAllEqual | fft-to-color.py:161 | the mean of equal samples is that sample |
| Samples.MeanShifted | fft-to-color.py:161 | adding c to every sample adds c to the mean |
| Rms.SumSquaredDeviation | fft-to-color.py:162 | the sum of squared deviations is never negative |
| Rms.MeanSquareDeviation | fft-to-color.py:157-163 | the value under the square root is never negative, and it is 0 for the empty window |
| Rms.SumSquaredDeviationZero | fft-to-color.py:162 | the squared deviations from m sum to 0 if and only if every sample equals m |
| Rms.MeanSquareDeviationZeroIffConstant | fft-to-color.py:159-163 | the RMS is 0 if and only if all samples are equal |
| Rms.MeanSquareDeviationShiftInvariant | fft-to-color.py:161-163 | adding the same constant to every sample leaves the RMS unchanged |
| Plot.TruncDiv | fft-to-color.py:111 | Python's `int()` of a true quotient by b > 0, which rounds toward zero: for a >= 0 the q >= 0 with q b <= a < (q + 1) b, and for a < 0 the q <= 0 with -q b <= -a < (-q + 1) b |
| Plot.Peak | fft-to-color.py:87-91 | the running maximum is at least 0, at least every magnitude in its range, and either 0 or one of those magnitudes |
| Plot.ColumnPeakIsBin | fft-to-color.py:81-91 | with 64 samples and 32 columns, column 0 is always 0 (bin 0 is skipped) and column i >= 1 is the magnitude of bin i |
| Plot.HeightMeaning | fft-to-color.py:94-96 | the height is in [0, 58]; below 58 it is h exactly when the peak is in [200 h, 200 (h + 1)); it is 58 exactly when the peak is at least 11600 |
| Plot.HeightMonotone | fft-to-color.py:94-96 | a larger peak is never drawn shorter |
| Plot.FrequencyXInRange | fft-to-color.py:93 | the 32 column positions lie in [9, 128), and the last one is 127 |
| Plot.FrequencyXIncreasing | fft-to-color.py:93 | each column lies strictly right of the one before |
| Plot.FrequencyPointOnScreen | fft-to-color.py:93-97 | every spectrum point lies on the screen, in the rows 0 .. 58 |
| Plot.FrequencyPoints | fft-to-color.py:82-97 | 32 points; point i is at column i's x and at 58 less the height of the column's peak |
| Plot.TimeXInRange | fft-to-color.py:110 | the 64 sample positions lie in [9, 128), and the last one is 127 |
| Plot.TimeXIncreasing | fft-to-color.py:110 | each sample lies strictly right of the one before |
| Plot.TimeYInRange | fft-to-color.py:111 | a reading in [0, 65535] lands in the rows 0 .. 58; reading 0 is on row 58, and only full scale reaches row 0 |
| Plot.TimeYAntitone | fft-to-color.py:111 | a larger non-negative reading is drawn no lower |
| Plot.TimePoints | fft-to-color.py:107-112 | one point per sample of the buffer, whatever its length, at that sample's x and y |
| Plot.Polyline | fft-to-color.py:99-100 | one segment from each point to the next, in order, and none for fewer than two points |
| Plot.PolylineIsChain | fft-to-color.py:114-115 | each segment ends where the next one starts |
| Plot.DrawFrequencyPlot | fft-to-color.py:77-100 | 32 on-screen points at the computed positions, joined by 31 segments that each run left to right |
| Plot.DrawTimePlot | fft-to-color.py:103-115 | a point for every sample, joined left to right; the points are in rows 0 .. 58 when the readings are in [0, 65535], and on screen when there are at most 64 samples |

## Left out

- Floating point: all arithmetic is exact (integers, reals, and complex numbers over reals). `int()` of a float quotient is modelled as the exact quotient rounded toward zero; near-integer rounding errors of floats are not modelled.
- The square root of `calculate_rms`, and `abs` of a complex bin: the model stops at the mean-square deviation, and the plot takes the bins' magnitudes as input.
- The twiddle step (`math.pi`, `cmath.exp`) and the product `w *= w_step`: its value is never used by a butterfly, so it does not affect the result.
- The `@micropython.native` decorator: it affects only how the code is compiled.
- `draw_axes_and_labels`, `display.fill`, `display.text` and `display.show`, the LEDs, the ADC read, the button, the timers and the main loop are not part of this model. They are hardware I/O or control flow around the core.
- Plot.DrawFrequencyPlot: requires at least 32 magnitudes. The source raises `IndexError` on a shorter list, and that error is not modelled. The magnitudes are required to be non-negative because the source takes `abs` of each bin.
- Plot.FrequencyPoints: same precondition as DrawFrequencyPlot, for the same reason.
- Spectrum.Butterflies: requires a power-of-two length, which the guard ensures before it is reached (the empty window raises before it).
