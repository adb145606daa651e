# Signal utilities of the SDR spectrum viewer, in Dafny

This project models the JavaScript signal-processing helpers that the SDR
front end uses before it draws a spectrum (`shared/js/signalUtils.js`). It
also proves what those helpers guarantee. The module for each exported
function is:

- `PeakDetection` (`peaks.dfy`) models `findPeaks`. It is a greedy,
  earliest-first scan for interior strict local maxima above
  `threshold * max(signal)`. A candidate is kept only when it lies at least
  `minDistance` after the last kept peak. The method keeps the source's loop,
  which pushes onto a list. It is proved equal to a recursive specification,
  `Scan`, and the lemmas characterise that specification.
- `SpectrumShift` (`shift.dfy`) models `fftShift` as two loops:
  - one loop builds the interleaved (re, im) input buffer;
  - the other loop writes each FFT bin i into slot `i < n/2 ? i + n/2 : i - n/2`
    of the `freqs` and `fftValues` arrays.

  The FFT library is an opaque transform that fills a buffer of its input's
  size. `Math.sqrt` is an opaque function.
- `Windowing` (`window.dfy`) models `applyWindow`:
  - it lower-cases the window name;
  - it picks Hann, Hamming or Blackman, and rejects any other name with the
    source's error message;
  - it fills the window buffer in a loop;
  - it multiplies the signal by the window sample by sample.

  The cosine terms `Math.cos(m·π·i/(n−1))` are an opaque function `cosine(m, i, n)`.
- `Decibels` (`decibels.dfy`) models `toDecibels`: `20·log10` of each magnitude,
  with the magnitude clamped from below at `10^(−120/20)`. `Math.log10` is opaque.
- `Normalization` (`normalize.dfy`) models `normalizeSignal`. It subtracts the
  mean and divides by the population standard deviation. The `std || 1` guard
  replaces a zero deviation by 1.

Numbers are Dafny `real`s. Functions the code calls but does not define are
parameters of the Dafny members: `sqrt`, `log10`, `cosine` and the FFT `transform`.
Some properties depend on what those functions compute. Those lemmas take the
needed facts as preconditions, such as `sqrt(v)^2 = v` or `log10` being monotone.

The code behaves as follows, which a reader might not expect. The model keeps
each of these behaviours:

- a peak must be strictly above `threshold * max(signal)`;
- a peak is compared with its two immediate neighbours only;
- `findPeaks` does not validate its parameters;
- a fractional `minDistance` acts as the next integer up, because index gaps
  are whole numbers;
- with threshold 0.1 and `minDistance` 3, `[0,1,0,5,0,1,0]` gives `[1,5]`, not the highest peak (at the default threshold 0.5 only index 3 clears the level, and the result is `[3]`)
  alone: the earlier peak is kept first and blocks the higher one;
- `normalizeSignal` does not reject a constant signal. It divides by 1 instead;
- the decibel floor is a clamp of the magnitude at 1e-6, not an added epsilon;
- only three window names are accepted.

## Model

| member | source | states |
|---|---|---|
| PeakDetection.MaxOf | shared/js/signalUtils.js:117 | definition: Math.max over a non-empty signal |
| PeakDetection.ThresholdValue | shared/js/signalUtils.js:118 | definition: threshold·max, or 0 for an empty signal |
| PeakDetection.IsCandidate | shared/js/signalUtils.js:121-125 | definition: an interior index above the threshold value and both neighbours |
| PeakDetection.FarEnough | shared/js/signalUtils.js:127 | definition: no peak kept yet, or at least minDistance after the last one |
| PeakDetection.Scan | shared/js/signalUtils.js:120-131 | definition: the peak list after the loop has examined the indices below k |
| PeakDetection.Peaks | shared/js/signalUtils.js:115-134 | definition: the scan over every interior index at level threshold·max |
| PeakDetection.MaxOfIsMaximum | shared/js/signalUtils.js:117 | the maximum used for the threshold is a sample of the signal, and no sample exceeds it |
| PeakDetection.ScanSound | shared/js/signalUtils.js:120-131 | every index the scan keeps before step k is an interior candidate: above the threshold value and above both neighbours, and less than k |
| PeakDetection.ScanSpaced | shared/js/signalUtils.js:127-129 | the kept indices rise strictly, and consecutive ones are at least minDistance apart |
| PeakDetection.SpacedIncreasing | shared/js/signalUtils.js:127-129 | consecutive spacing makes the whole list strictly increasing, for every pair of entries |
| PeakDetection.ScanPrefix | shared/js/signalUtils.js:120-131 | the scan only appends, so the list after an earlier step is a prefix of the list after a later one |
| PeakDetection.ScanTailAbove | shared/js/signalUtils.js:120-131 | entries appended at or after step i are all at least i |
| PeakDetection.ScanKeeps | shared/js/signalUtils.js:121-129 | an examined index is kept if and only if it is a candidate and it is empty-list-or-far-enough from the last peak kept before it |
| PeakDetection.ScanEmpty | shared/js/signalUtils.js:120-131 | with no candidate below k, the scan keeps nothing |
| PeakDetection.PeaksSound | shared/js/signalUtils.js:117-125 | every returned index i has 1 ≤ i ≤ len−2, signal[i] > threshold·max(signal), and is above both neighbours |
| PeakDetection.PeaksShort | shared/js/signalUtils.js:120 | a signal of fewer than three samples yields no peaks |
| PeakDetection.PeaksOrdered | shared/js/signalUtils.js:120-129 | the result is strictly increasing, with consecutive peaks at least minDistance apart |
| PeakDetection.FirstCandidateKept | shared/js/signalUtils.js:127-128 | the earliest candidate is always returned, whatever minDistance is |
| PeakDetection.CandidateDropped | shared/js/signalUtils.js:127-128 | a candidate is left out if and only if some peak was kept before it and it is less than minDistance after the last such peak |
| PeakDetection.PrefixBelow | shared/js/signalUtils.js:127-128 | a prefix of entries below i, followed only by entries at least i, is exactly the entries below i |
| PeakDetection.ScanIsPeaksBelow | shared/js/signalUtils.js:120-131 | the list the loop holds when it reaches index i is exactly the returned peaks below i |
| PeakDetection.CandidateDroppedByPeaks | shared/js/signalUtils.js:127-128 | in terms of the result alone: a candidate is missing if and only if some returned peak lies below it and the last such peak is less than minDistance before it |
| PeakDetection.ExampleThreshold | shared/js/signalUtils.js:117-118 | for [0,1,0,5,0,1,0] and threshold 0.1 the threshold value is 0.5 |
| PeakDetection.ExampleCandidates | shared/js/signalUtils.js:121-125 | at level 0.5 indices 1, 3 and 5 are candidates, and 2 and 4 are not |
| PeakDetection.ExampleScanOne | shared/js/signalUtils.js:120-131 | at level 0.5 with minDistance 1 the scan keeps [1,3,5] |
| PeakDetection.ExampleScanThree | shared/js/signalUtils.js:120-131 | at level 0.5 with minDistance 3 the scan keeps [1,5] |
| PeakDetection.ExampleDistanceOne | shared/js/signalUtils.js:115-134 | findPeaks([0,1,0,5,0,1,0], 0.1, 1) is [1,3,5] |
| PeakDetection.ExampleDistanceThree | shared/js/signalUtils.js:115-134 | findPeaks([0,1,0,5,0,1,0], 0.1, 3) is [1,5]: the highest maximum is dropped because the earlier one is kept first |
| PeakDetection.ExampleDefaultThreshold | shared/js/signalUtils.js:115-134 | at the default threshold 0.5 the level is 2.5 and findPeaks([0,1,0,5,0,1,0], 0.5, 3) is [3] |
| PeakDetection.ExampleFractionalDistance | shared/js/signalUtils.js:127 | with minDistance 2.5 the example gives [1,5], as with 3 |
| PeakDetection.FindPeaks | shared/js/signalUtils.js:115-134 | the loop returns exactly the greedy scan's list; every entry is a candidate; the list is spaced; short signals give []; minDistance is any real, as the source accepts any number |
| SpectrumShift.BinMagnitude | shared/js/signalUtils.js:47-49 | definition: sqrt(re² + im²) of bin k |
| SpectrumShift.BinFrequency | shared/js/signalUtils.js:44-45 | definition: the fftfreq frequency of index k, the axis the labels form |
| SpectrumShift.StoredLabel | shared/js/signalUtils.js:45 | definition: the label (i − n/2)·(rate/n) computed for bin i |
| SpectrumShift.ShiftIndex | shared/js/signalUtils.js:44 | for even n the slot of every bin is inside [0, n) |
| SpectrumShift.ShiftIsRotation | shared/js/signalUtils.js:44 | the slot of bin i is (i + n/2) mod n |
| SpectrumShift.ShiftInvolution | shared/js/signalUtils.js:44 | applying the slot map twice gives back the bin |
| SpectrumShift.ShiftBijection | shared/js/signalUtils.js:43-44 | no two bins share a slot, and every slot is the slot of some bin |
| SpectrumShift.LabelAtSlot | shared/js/signalUtils.js:44-45 | the label stored for bin i equals the fftfreq frequency of the slot it is stored in |
| SpectrumShift.SlotsAdvance | shared/js/signalUtils.js:43-50 | one iteration writes slot ShiftIndex(i) and leaves every other slot as it was, so each slot is written once after its bin |
| SpectrumShift.SlotsDone | shared/js/signalUtils.js:43-50 | after all n bins every slot has been written exactly once, with its label and its shifted bin's magnitude |
| SpectrumShift.ComplexInput | shared/js/signalUtils.js:30-34 | the input buffer has 2n entries: sample k/2 at even positions k and 0 at odd ones |
| SpectrumShift.Interleaved | shared/js/signalUtils.js:30-34 | the interleaved buffer as a value has twice the signal's length |
| SpectrumShift.StoreBin | shared/js/signalUtils.js:44-49 | one loop step changes only slot ShiftIndex(i) of each array: the label (i − n/2)·rate/n and the magnitude of bin i |
| SpectrumShift.ShiftSpectrum | shared/js/signalUtils.js:40-50 | both outputs have n entries; each slot is written exactly once; fftValues[j] is the magnitude of bin ShiftIndex(j); freqs[j] is the fftfreq frequency of j |
| SpectrumShift.Magnitudes | shared/js/signalUtils.js:47-49 | the unshifted magnitude list has one entry per (re, im) pair |
| SpectrumShift.ShiftedIsRotation | shared/js/signalUtils.js:43-50 | reading bins through the slot map swaps the two halves, so the result is a permutation of the bins |
| SpectrumShift.FftShift | shared/js/signalUtils.js:24-53 | for even n both outputs have length n; fftValues[j] is the magnitude of bin ShiftIndex(j) of the transform of the interleaved input; freqs[j] is the fftfreq frequency of j; fftValues is a permutation of the bin magnitudes |
| SpectrumShift.MagnitudeSlots | shared/js/signalUtils.js:44-49 | fftValues[(i + n/2) mod n] is bin i's magnitude, so DC sits at n/2 |
| SpectrumShift.LabelSlots | shared/js/signalUtils.js:44-45 | freqs[(i + n/2) mod n] is (i − n/2)·rate/n |
| SpectrumShift.LabelMismatch | shared/js/signalUtils.js:44-45 | freqs[n/2] is −rate/2, and at every slot the label is off by exactly rate/2 from the frequency of the bin whose magnitude is there |
| SpectrumShift.FourPointExample | shared/js/signalUtils.js:43-50 | for n = 4 and rate 4 the labels are [0,1,−2,−1] and slot 2 holds the DC magnitude while labelled −2 |
| SpectrumShift.CenteredFrequency | shared/js/signalUtils.js:45 | the corrected label of slot j is the frequency of the bin whose magnitude is stored there |
| SpectrumShift.CenteredLabels | shared/js/signalUtils.js:40-45 | the corrected label array has n entries, each matching the bin stored in its slot |
| SpectrumShift.CenteredAscending | shared/js/signalUtils.js:45 | with a positive rate the corrected labels rise strictly from slot to slot |
| SpectrumShift.CenteredStart | shared/js/signalUtils.js:45 | the corrected axis starts at −rate/2 |
| Windowing.DefaultWindowType | shared/js/signalUtils.js:61 | definition: the default window name, 'hann' |
| Windowing.ToLowerChar | shared/js/signalUtils.js:65 | definition: an ASCII upper-case letter moves down by 32, every other character is kept |
| Windowing.Name | shared/js/signalUtils.js:66-78 | definition: the case label of each window, 'hann', 'hamming' and 'blackman' |
| Windowing.ToLower | shared/js/signalUtils.js:65 | lower-casing keeps the length |
| Windowing.ParseWindowType | shared/js/signalUtils.js:65-90 | definition: the switch on the lower-cased name, None for the default branch |
| Windowing.UnknownWindowMessage | shared/js/signalUtils.js:88-90 | the message is "Unknown window type: ", then the name as given, then the list of accepted names |
| Windowing.Coefficient | shared/js/signalUtils.js:66-85 | definition: the Hann, Hamming and Blackman formulas over the cosine terms |
| Windowing.ToLowerIdempotent | shared/js/signalUtils.js:65 | lower-casing keeps the length, leaves no upper-case ASCII letter, and is idempotent |
| Windowing.ParseWindowTypeSpec | shared/js/signalUtils.js:65-90 | a name selects a window if and only if its lower-cased form is that window's name; it is rejected if and only if its lower-cased form is none of the three |
| Windowing.ParseName | shared/js/signalUtils.js:65-85 | each window's own name selects that window |
| Windowing.ParseIgnoresCase | shared/js/signalUtils.js:65 | the choice depends only on the lower-cased name |
| Windowing.ParseExamples | shared/js/signalUtils.js:61-90 | the default "hann", and "Hann", "HAMMING" and "BlackMan", select their windows; "flattop" and "hanning" are rejected |
| Windowing.ParseKeepsNonAscii | shared/js/signalUtils.js:65 | the Kelvin sign is not lowered, so 'blac\u212Aman' names no window in the model |
| Windowing.CoefficientSymmetric | shared/js/signalUtils.js:66-85 | if cos(m·π·k/(n−1)) = cos(m·π·(n−1−k)/(n−1)) for every even m, every window is symmetric about its middle |
| Windowing.CoefficientAtZero | shared/js/signalUtils.js:66-76 | with cos 0 = 1, Hann starts at 0 and Hamming at 0.08 |
| Windowing.FillWindow | shared/js/signalUtils.js:63-85 | after the fill loop, every window entry is the chosen window's coefficient at its index |
| Windowing.ApplyWindow | shared/js/signalUtils.js:61-94 | it fails if and only if the name is not recognised, with the source's message; otherwise the output has the input's length and out[i] = signal[i]·coefficient(i) |
| Decibels.MinDb | shared/js/signalUtils.js:102 | definition: the minimum level, −120 dB |
| Decibels.Abs | shared/js/signalUtils.js:104 | definition: Math.abs, x with its sign dropped |
| Decibels.Pow10 | shared/js/signalUtils.js:104 | every integer power of ten is positive |
| Decibels.Floor | shared/js/signalUtils.js:102-104 | the floor 10^(minDb/20) is positive |
| Decibels.FloorIsOneMillionth | shared/js/signalUtils.js:102-104 | 10^(−120/20) is exactly 1e-6 |
| Decibels.LogArgument | shared/js/signalUtils.js:104 | the log argument is at least the floor and at least \|x\|, and it is one of the two |
| Decibels.LogArgumentClamp | shared/js/signalUtils.js:102-104 | the log argument is at least 1e-6; it is \|x\| when \|x\| ≥ 1e-6, and 1e-6 otherwise |
| Decibels.ToDecibels | shared/js/signalUtils.js:101-106 | the output has the input's length |
| Decibels.DecibelsPerSample | shared/js/signalUtils.js:104 | a sample of magnitude ≥ 1e-6 converts as 20·log10\|x\|; a smaller one converts as 1e-6 does |
| Decibels.DecibelsAtLeastMinDb | shared/js/signalUtils.js:102-104 | for a monotone log10 with log10(1e-6) = −6, no output is below −120 dB, and a zero sample gives exactly −120 dB |
| Normalization.Sum | shared/js/signalUtils.js:11 | definition: the sum of the samples |
| Normalization.SquaredDeviations | shared/js/signalUtils.js:13 | definition: the sum of squared deviations from m |
| Normalization.Mean | shared/js/signalUtils.js:11 | definition: the sum divided by the length |
| Arithmetic.Square | shared/js/signalUtils.js:13 | definition: Math.pow(x, 2) as x·x, also used for the squared parts at line 48 |
| Normalization.Variance | shared/js/signalUtils.js:12-14 | definition: the population variance, whose square root is std |
| Normalization.Divisor | shared/js/signalUtils.js:15 | the divisor is never 0, and it is the deviation whenever the deviation is non-zero |
| Normalization.NormalizeSignal | shared/js/signalUtils.js:10-16 | the output has the input's length |
| Normalization.SumConstant | shared/js/signalUtils.js:11 | the sum of n copies of c is n·c |
| Normalization.SquaredDeviationsConstant | shared/js/signalUtils.js:13 | a constant signal has no deviation from its value |
| Normalization.ConstantStatistics | shared/js/signalUtils.js:11-14 | a constant signal's mean is its value and its variance is 0 |
| Normalization.ConstantNormalizesToZero | shared/js/signalUtils.js:15 | a constant signal normalizes to all zeros; when sqrt(0) = 0 the divisor is the fallback 1 |
| Normalization.ZeroStdGuard | shared/js/signalUtils.js:15 | with a zero deviation each output is the sample minus the mean |
| Normalization.SumShiftScale | shared/js/signalUtils.js:11-15 | centring by m and dividing by d gives a sum of (sum − n·m)/d |
| Normalization.SquaredDeviationsScale | shared/js/signalUtils.js:13-15 | the squared deviations of the scaled signal, times d², give those of the original |
| Normalization.NormalizedMeanZero | shared/js/signalUtils.js:11-15 | the normalized signal sums to 0 and has mean 0 |
| Normalization.CenteredMeanZero | shared/js/signalUtils.js:11-15 | centring a signal on its mean and dividing by any non-zero d gives sum 0 and mean 0 |
| Normalization.ScaledVariance | shared/js/signalUtils.js:12-15 | dividing the centred signal by d divides its variance by d² |
| Normalization.NormalizedUnitVariance | shared/js/signalUtils.js:12-15 | when sqrt really is the square root of a non-zero variance, the normalized signal has variance 1 |

## Left out

- The FFT library (`new FFT(n)`, `realTransform`) is an opaque transform. The only assumption is that its output buffer has its input's size. What the transform computes, and the library's power-of-two size requirement, are not modelled.
- `Math.sqrt`, `Math.log10` and `Math.cos` are opaque function parameters. The two uses of `Math.pow` are modelled exactly: `Math.pow(x, 2)` as `Square(x) = x·x`, and `Math.pow(10, −120/20)` as the integer power `Pow10(−6)`.
- Float32Array storage: outputs are exact reals, so Float32 rounding is not modelled. Neither is any NaN or Infinity that floating point produces. Examples are the window formulas at n = 1, where n − 1 = 0, and a NaN sample reaching any algorithm.
- FftShift: requires an even number of samples. The odd case depends on the FFT library. A power-of-two library such as fft.js throws in its constructor before any shifting. If the library accepts an odd n, every slot `i ± n/2` is fractional. A Float32Array ignores stores at fractional keys, so no write happens and both outputs come back all zeros. The model covers neither outcome.
- Windowing.ToLowerChar: lower-cases ASCII letters only. Other Unicode case mappings of `toLowerCase` are not modelled. So a name that JavaScript lowers to a window name through a non-ASCII mapping is accepted by the source but rejected by the model. An example is "blac\u212Aman": the Kelvin sign U+212A lowers to 'k' (Windowing.ParseKeepsNonAscii). The iff in Windowing.ParseWindowTypeSpec and Windowing.ApplyWindow holds for ASCII lowering only.
- Windowing.FillWindow: the source has three per-window loops. They are modelled as one loop over the chosen window's closed-form coefficient, which has the same effect.
- PeakDetection.ThresholdValue: for an empty signal the source computes threshold·(−Infinity). No index is examined then, so the model uses 0.
- `Math.max(...signal)` can throw a RangeError for very long arrays, because of argument-count limits. The model treats the maximum as always defined.
- Normalization.NormalizeSignal: for an empty signal the source's mean is NaN, but it is never used, because the map is over no samples. The model returns the empty sequence.
- The server-side Python code is not part of this model:
  - the numpy and scipy wrappers in `shared/python/signal_utils.py`;
  - `backend/app/analysis/spectrum.py`;
  - the FastAPI and websocket loop in `backend/app/main.py`;
  - the gnuradio source in `backend/app/sources/sdr_source.py`.

  Each only forwards to libraries or does I/O. `processing/filters.py` is not part of this model.

## Findings

| source | as written | input that shows it | evidently intended | confidence | as-written member | corrected member |
|---|---|---|---|---|---|---|
| shared/js/signalUtils.js:44-45 | the label stored in slot idx is computed from the bin index i, (i − n/2)·rate/n, while the magnitude in that slot is bin i's. So the labels form the unshifted fftfreq axis and disagree with the shifted magnitudes by rate/2 everywhere | n = 4, sampleRate = 4: slot 2 holds the DC magnitude but is labelled −2; the labels are [0, 1, −2, −1] | slot j labelled (j − n/2)·rate/n, the frequency of the bin stored there. That axis rises from −rate/2 | not executed | SpectrumShift.LabelMismatch | SpectrumShift.CenteredLabels |
