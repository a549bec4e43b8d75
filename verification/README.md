# Chromatic tuner: analysis path model

A Dafny model of the pitch-detection core of the chromatic tuner
(`SoundProcessor`) and of the part of `ApplicationUI::onReadingUpdated` that
turns a reading into text and tuning indicators.

The sound processor receives audio fragments from the capture device. It keeps
the most recent `captureWindow` bytes in a window. Every second successful
read starts one analysis pass. A pass finds the loudest spectral bin and
rejects it when it is too quiet. It converts the bin to a frequency, refining
that frequency by parabolic interpolation for small FFT sizes. It pushes the
frequency into a three-entry history. A note is reported only when the history
is consistent (each entry within 10% of the previous one) and the coarse
frequency is between 20 and 22000 Hz. The note mapper splits the logarithmic
pitch into octave, semitone and cents, rounding to the nearest semitone. The
display shows the note name, a signed whole-cents text and at most one of five
indicators (none at exactly +5 cents).

Modules, one per file:

- `Options` (`options.dfy`): an optional value.
- `Decimal` (`decimal.dfy`): `%d` rendering of integers and its parser.
- `CaptureWindow` (`capture_window.dfy`): the byte window and its update on a read.
- `Spectrum` (`spectrum.dfy`): the peak search and bin-to-frequency conversion. The conversion uses 32-bit `int`/`size_t` wrap-around.
- `Interpolation` (`interpolation.dfy`): the three-point parabola and its vertex.
- `Stability` (`stability.dfy`): the frequency history and the consistency test.
- `NoteMapper` (`note_mapper.dfy`): the `NoteInfo` record and the frequency-to-note mapping.
- `SoundProcessor` (`sound_processor.dfy`): the configuration, processor state, one analysis pass (`GetNote`) and one device read (`ReadPCM`).
- `TunerDisplay` (`tuner_display.dfy`): the labels and the five-indicator decision.

Some things the model cannot compute are passed in as parameters instead:

- A device read is given as its byte count and its fragment.
- The spectrum of the window is given as a sequence of bin amplitudes, with no constraint on any of them. The scan covers `fftSize` bins. The transform writes only the first `fftSize/2 + 1` of them, and the output array is never cleared, so the higher bins hold whatever the memory held. Leaving every amplitude unconstrained covers that.
- `log2` is a function parameter `real -> real`.

Single-precision arithmetic is modelled with Dafny `real`. The model makes no bit-exact claims.

The model follows the code:

- The code keeps no "last stable reading" and has no silence threshold. Every analysis pass emits its own reading. The line that would record the stable note, src/soundprocessor.cpp:209, is commented out.
- The analysis runs after every 2 successful reads.
- Interpolation happens only when `fftSize <= 32768`.
- Bin-to-frequency conversion is integer division. Bin 0 wraps.
- Overtone detection is never called.

There is one exception. When the interpolation parabola has no vertex, the code stores a non-finite frequency. The model instead keeps the coarse frequency of the peak bin. This is the first row of "## Findings", and a line under "## Left out" records it.

## Model

| member | source | states |
|---|---|---|
| `CaptureWindow.Capture` | src/soundprocessor.cpp:120-127 | A read returning at most 0 bytes leaves the window unchanged. Otherwise the window keeps its length, the surviving bytes move `bytesRead` places toward the front in order, and the first `bytesRead` fragment bytes fill the tail. |
| `CaptureWindow.CaptureKeepsRecent` | src/soundprocessor.cpp:117-127 | The window always holds the last `captureWindow` bytes of everything read, zero-filled at the front until it is full. A read extends that stream by exactly the bytes it returned. |
| `Spectrum.PeakSearch` | src/soundprocessor.cpp:156-164 | Returns the lowest bin holding the strictly greatest amplitude among the scanned bins. Every scanned amplitude is at most the result. When no amplitude exceeds 0, the result is bin 0 with amplitude 0. |
| `Spectrum.UniqueMaximumIsPeak` | src/soundprocessor.cpp:156-164 | A positive amplitude strictly above all other scanned amplitudes is the one the peak search reports. |
| `Spectrum.BinToFreq` | src/soundprocessor.cpp:278-280 | For bins from 1 upward whose product does not wrap, the frequency is the floor of `(bin-1)*(sampleRate/2) / (fftSize/2)`. For bin 0 the negative product wraps modulo 2^32 before the division. |
| `Spectrum.BinZeroIsInsane` | src/soundprocessor.cpp:278-280 | For every FFT size up to 131072, bin 0 converts to more than 22000 Hz, so it can never pass the sanity gate. |
| `Spectrum.ConfiguredBinZero` | src/soundprocessor.cpp:278-280 | At 44100 Hz with a 131072-point FFT, bin 0 reads as 65535 Hz. |
| `Spectrum.BinToFreqStrictlyIncreasing` | src/soundprocessor.cpp:278-280 | When half the sample rate is at least half the FFT size and nothing wraps, neighbouring bins from 1 up give strictly increasing frequencies. |
| `Interpolation.Fit` | src/soundprocessor.cpp:287-290 | The coefficients a, b, c computed from the three points give a parabola that passes through all three points whenever d ≠ 0. |
| `Interpolation.DenominatorNonzero` | src/soundprocessor.cpp:287 | d ≠ 0 exactly when the three abscissae are pairwise distinct. |
| `Interpolation.VertexOf` | src/soundprocessor.cpp:292-293 | The parabola equals the vertex value plus a times the squared distance from the vertex abscissa. When a < 0 the vertex is the parabola's maximum. |
| `Interpolation.VertexAsWritten` | src/soundprocessor.cpp:286-294 | The unguarded vertex is finite exactly when d ≠ 0 and a ≠ 0. When it is finite it is the vertex of the fitted parabola. |
| `Interpolation.GuardedVertex` | src/soundprocessor.cpp:286-294 | The guarded vertex equals the unguarded one whenever that exists. Otherwise it is the middle (coarse) point. |
| `Interpolation.PeakParabolaOpensDown` | src/soundprocessor.cpp:175-186 | For a peak with a strictly lower left neighbour and a right neighbour that is not higher, at increasing frequencies, d ≠ 0 and a < 0. The vertex then exists and is a maximum. |
| `Stability.Push` | src/soundprocessor.cpp:192-194 | After a push the history has the same length. Every entry has moved one slot toward index 0, the old entry 0 is gone, and the new frequency is in the last slot. |
| `Stability.PushAllWindow` | src/soundprocessor.cpp:192-194 | After any sequence of pushes, the history is the final `historySize` values of the old history followed by the pushed frequencies. |
| `Stability.HistoryForgetsOldEntries` | src/soundprocessor.cpp:192-194 | After at least `historySize` pushes, the history holds exactly the most recent pushed frequencies. |
| `Stability.CheckConsistency` | src/soundprocessor.cpp:196-205 | The loop that stops at the first bad pair returns true exactly when every adjacent pair satisfies `0.9*prev <= cur <= 1.1*prev`. |
| `Stability.SteadyHistoryIsConsistent` | src/soundprocessor.cpp:198-205 | A history that repeats one non-negative frequency passes the consistency test. |
| `Stability.OctaveJumpIsInconsistent` | src/soundprocessor.cpp:198-205 | The history 100, 100, 200 Hz fails the consistency test. |
| `NoteMapper.SplitLinear` | src/soundprocessor.cpp:255-267 | The note number is in [0, 12) and the cents offset is in (-50, 50]. `1200*(linearF - octave) == 100*noteNumber + centsOff` holds, including after the wrap from G# to A of the next octave. The octave is the floor of linearF or one above it. |
| `NoteMapper.NearestIsUnique` | src/soundprocessor.cpp:255-267 | At most one (octave, note, cents) triple satisfies both the range conditions and the identity above. |
| `NoteMapper.SplitLinearIsNearest` | src/soundprocessor.cpp:255-267 | Any triple that satisfies the ranges and the identity is the mapper's result, so the mapper names the nearest note. |
| `NoteMapper.ConvertFreqToNote` | src/soundprocessor.cpp:252-272 | The name is the chromatic name of the nearest note to `log2((f/overtone)/tuningFreq) + 4`, followed by the octave in decimal. The name is never empty. The cents offset is in (-50, 50]. The frequency and amplitude are passed through unchanged. |
| `NoteMapper.TuningFrequencyIsA4` | src/soundprocessor.cpp:252-272 | When log2(1) = 0, a frequency equal to the tuning frequency maps to "A4" with 0 cents. |
| `NoteMapper.NoteNamesDistinct` | src/soundprocessor.cpp:253 | The twelve chromatic names are pairwise distinct. |
| `NoteMapper.NoteName` | src/soundprocessor.cpp:268 | The `%s%d` name is at least two characters: a chromatic name and at least one octave digit. |
| `NoteMapper.NoteNameRoundTrip` | src/soundprocessor.cpp:268 | A printed note name can be parsed back into the semitone and octave it was printed from. |
| `Decimal.IntToStringRoundTrip` | src/soundprocessor.cpp:268 | `%d` text of any integer parses back to that integer. |
| `SoundProcessor.Interpolates` | src/soundprocessor.cpp:175 | Interpolation runs only for a peak above bin 0, so that a left neighbour exists, and never at the configured 131072-point FFT. |
| `SoundProcessor.Neighbourhood` | src/soundprocessor.cpp:176-179 | The three points carry the amplitudes of the peak bin and its two neighbours. From bin 2 up, when bins are at least 1 Hz apart and nothing wraps, their frequencies strictly increase. |
| `SoundProcessor.AdjustedFreq` | src/soundprocessor.cpp:167-186 | Without interpolation, the stored frequency is the coarse frequency of the peak bin. With interpolation, it is the parabola vertex when one exists and the coarse frequency otherwise. |
| `SoundProcessor.GetNote` | src/soundprocessor.cpp:138-227 | A peak of at most 40 gives the empty reading: silent count +1, history unchanged. Otherwise the silent count becomes 0 and the history gets a push. A note is reported exactly when the peak exceeds 40, the new history is consistent and the coarse frequency is in [20, 22000]. A reported note is the nearest-note mapping of the pushed frequency at the peak amplitude with overtone 1, so its cents are in (-50, 50]. |
| `SoundProcessor.CountRead` | src/soundprocessor.cpp:120-135 | A batch completes exactly when the counter plus this read's success (1 if it returned bytes) reaches 2. The successes are conserved: they are either left in the counter or consumed by the pass, which resets the counter to 0. A counter in {0, 1} stays in {0, 1}. |
| `SoundProcessor.ReadPCM` | src/soundprocessor.cpp:113-136 | The window is updated by `Capture`. The counter and the emit decision are exactly those of `CountRead`: a reading is emitted when the counter plus this read's success reaches 2, and the counter is then 0. The emitted reading is that pass's result. A read that emits nothing leaves the history and silent count alone. |
| `SoundProcessor.ReadKeepsRecentWindow` | src/soundprocessor.cpp:113-127 | If a processor's window is the recent-bytes window of a stream, after a read it is the recent-bytes window of the stream extended by that read. |
| `SoundProcessor.OnePassPerTwoReads` | src/soundprocessor.cpp:125-135 | Starting from a counter c in {0, 1}, applying the counter step of `ReadPCM` (`CountRead`) over reads with s successes triggers (c+s)/2 analysis passes (rounded down) and leaves the counter at (c+s) mod 2. |
| `SoundProcessor.SteadyToneIsReported` | src/soundprocessor.cpp:191-210 | Without interpolation, a loud in-range peak whose coarse frequency already fills every history slot but the oldest yields a note. |
| `SoundProcessor.InterpolationDefinedAboveBinOne` | src/soundprocessor.cpp:175-186 | When bins are at least 1 Hz apart and nothing wraps, a peak from bin 2 up whose right neighbour is scanned always has a vertex, with a < 0. |
| `SoundProcessor.UnguardedVertexFailsAtBinOne` | src/soundprocessor.cpp:175-185 | With a 32768-point FFT, a loud peak at bin 1 with amplitudes 50, 262192, 262191 in bins 0-2 takes the interpolation branch, and the unguarded vertex does not exist. |
| `SoundProcessor.GuardedVertexKeepsCoarseAtBinOne` | src/soundprocessor.cpp:175-185 | On that spectrum, the guarded pass stores the coarse 0 Hz and reports the empty reading. |
| `TunerDisplay.Truncate` | src/applicationui.cpp:56 | The conversion to int truncates toward zero: the result's magnitude is the whole part of the input's magnitude, with the same sign unless it is 0. |
| `TunerDisplay.Magnitude` | src/applicationui.cpp:56 | The printed magnitude m satisfies m ≤ abs(centsDiff) < m + 1. |
| `TunerDisplay.CentsText` | src/applicationui.cpp:56 | The text starts with '-' exactly when centsDiff < 0, and with '+' otherwise, including at 0. Then come decimal digits, then a final '\n'. |
| `TunerDisplay.CentsTextRoundTrip` | src/applicationui.cpp:56 | The text can be parsed back into the truncated magnitude and the sign. |
| `TunerDisplay.SmallNegativeOffsetPrintsMinusZero` | src/applicationui.cpp:56 | -0.7 cents prints "-0". |
| `TunerDisplay.Labels` | src/applicationui.cpp:66-76 | The empty note shows "I'm listening..." and an empty cents label. A note shows its name and its cents text. The cents label is empty exactly when the note is. |
| `TunerDisplay.IndicatorsFor` | src/applicationui.cpp:93-116 | The in-tune indicator is lit exactly when the offset is within 5 cents either way (strictly). A flat indicator is lit exactly at -5 or below. A sharp indicator is lit exactly above +5. A big-difference indicator is lit exactly at 25 cents or more either way. |
| `TunerDisplay.OneIndicatorExceptAtPlusFive` | src/applicationui.cpp:93-116 | Exactly one of the five indicators is lit for every offset except +5, where none is lit. |
| `TunerDisplay.IndicatorsAsymmetricAtFive` | src/applicationui.cpp:98-111 | -5 lights the small-flat indicator, while +5 lights nothing. |
| `TunerDisplay.SymmetricIndicators` | src/applicationui.cpp:93-116 | The same as the indicators above, except that a sharp indicator is lit at +5 or above, mirroring the flat side. |
| `TunerDisplay.SymmetricIndicatorsPartition` | src/applicationui.cpp:93-116 | With the small-sharp band closed at 5, exactly one indicator is lit for every offset. Opposite offsets then light mirrored indicators. |
| `TunerDisplay.EmptyReadingLooksInTune` | src/applicationui.cpp:103-106 | The empty reading (cents 0) shows the listening text and no cents text, and lights only the in-tune indicator. |

## Left out

- Device handling is not modelled: opening, configuring, preparing and closing the PCM device, and the socket notifier (src/soundprocessor.cpp:31-111, 229-243). It is driver I/O and event plumbing. A read enters the model as its byte count and fragment.
- The FFT (`kiss_fftr`) and `getAmplitude` are not modelled. The first is a foreign library and the second uses a square root. The spectrum enters as a sequence of amplitudes with more than `fftSize` entries, because the source's output array has `2*fftSize`.
- `applyWindow` is not modelled: it uses cosine and float-to-short truncation.
- The analysis copies only `fftSize` bytes of the window, which is half of the `fftSize` samples it transforms. That copy is not modelled, because the spectrum is an input.
- `log2` in `convertFreqToNote` is a function parameter.
- `getOvertone` and `convertFreqToBin` are dead code: their only call is commented out. So the overtone is always 1, and the bin/frequency round trip is not modelled.
- The computation of `captureWindow` through float `ceil` is not modelled. The window length is taken as given, and fragments are required to be no longer than the window. That holds because `captureWindow` is a multiple of `fragSize`.
- Timing and debug output, and the per-pass allocation and freeing of FFT buffers, are not modelled.
- Label lookup, the early return when a label is missing, HTML spans and translation in the display are not modelled.
- Floating point is modelled as `real`. This does not cover rounding, infinities or NaN, and not the undefined behaviour of `(int)` casts on huge values. A signed `int` overflow in `convertBinToFreq` is modelled as 32-bit wrap-around.
- `GetNote`: the source leaves `amplitude` and `frequency` of the empty reading uninitialised. The model sets them to 0 and no contract relies on them.
- AdjustedFreq: when the interpolation parabola has no vertex, the code stores a non-finite `-b/(2a)` in the history, and this function stores the coarse frequency of the peak bin instead (the corrected `GuardedVertex`). With a = 0 and d ≠ 0 the code stores ±inf, which fails the consistency test on the next passes. With d = 0 (two neighbouring bins at the same integer frequency, which needs fewer than one hertz per bin and so cannot happen at 44100 Hz with FFT sizes up to 32768) it stores NaN. Every comparison with NaN is false, so the NaN passes the test and reaches `convertFreqToNote`. So `GetNote` and `ReadPCM` model the corrected pipeline on these inputs. The code as written is modelled by `Interpolation.VertexAsWritten` alone.
- `GetNote`: `silentReadCount` is never initialised in the source, and nothing decides anything by it; it is only incremented and reset. The model carries it as state and makes no claim about its starting value.
- `GetNote`: the interpolated amplitude is computed but never used, because the reading carries the peak amplitude. The model drops it.

## Findings

| source | as written | input that shows it | evidently intended | confidence | as-written member | corrected member |
|---|---|---|---|---|---|---|
| src/soundprocessor.cpp:286-294 | The vertex divides by d and by 2a with no check. | fftSize 32768, 44100 Hz, amplitudes 50, 262192, 262191 in bins 0, 1, 2. The peak is bin 1, bin 0 wraps to 262142 Hz, the three points are collinear, so a = 0. | When the parabola has no vertex, keep the coarse peak instead of storing a non-finite frequency in the history. | low: not executed; the branch is off at the configured FFT size 131072 | `Interpolation.VertexAsWritten` (`SoundProcessor.UnguardedVertexFailsAtBinOne`) | `Interpolation.GuardedVertex` (`SoundProcessor.GuardedVertexKeepsCoarseAtBinOne`, used by `SoundProcessor.AdjustedFreq`) |
| src/applicationui.cpp:108 | The small-sharp indicator tests `centsDiff > 5`. | centsDiff = 5.0 lights no indicator, while -5.0 lights the small-flat one. | `centsDiff >= 5`, mirroring the `<= -5` of the small-flat band. | medium: not executed | `TunerDisplay.IndicatorsFor` (`TunerDisplay.IndicatorsAsymmetricAtFive`) | `TunerDisplay.SymmetricIndicators` (`TunerDisplay.SymmetricIndicatorsPartition`) |
