# Real-time pitch and spectrogram visualizer: buffer logic

This is a Dafny model of the per-block logic of a real-time audio visualizer,
`scripts/Testing.py`. The visualizer captures microphone blocks of 1024 samples at
44.1 kHz. It scrolls a spectrogram of 513 frequency bins by 215 columns (5 seconds).
It keeps a 0.3-second window of raw samples for pitch estimation. Every 5th block it
appends a time-stamped pitch estimate to a bounded history. On each render tick it
filters that history to the last `duration` seconds and hands the result to a line, dots
and a label giving the note name.

Modules, following the components of the program:

- `Window` (`window.dfy`): the suffix window "keep the last `n` elements". All three
  bounded buffers share it. It also proves the multi-step results: a window fed chunk
  by chunk holds the last `n` elements of everything it was fed.
- `Samples` (`samples.dfy`): a float that is a number or NaN, and the history entry
  `(timestamp, pitch)`.
- `Notes` (`notes.dfy`): `hz_to_note`, the note name and octave of a MIDI note number,
  and Python's decimal rendering of the octave. A parser reads a label back; it exists
  to prove that distinct note numbers get distinct labels.
- `Spectrogram` (`spectrogram.dfy`): the clipped intensity column of one block and the
  one-column scroll, seen as a sequence of columns.
- `AudioCapture` (`audio_capture.dfy`): the settings, and the class `AudioState` holding
  the globals that the audio callback mutates: the 2-D array `specData`, the sample
  window `pitchBuffer`, `frameCounter` and the history `pitchValues`.
  `AudioCallback` is one invocation of the callback.
- `Render` (`render.dfy`): the visibility mask of `update_plot`, the points it hands to
  the line and dots, and the label it sets.

Inputs that come from libraries, the device or the clock are parameters:

- the FFT magnitudes of the block (`magnitudes`);
- the slider's gain (`gain`);
- `time.time()` (`now`);
- the pitch estimator (`estimator: seq<real> -> Float`);
- the floating-point note number `int(round(12 * log2(hz / 440) + 69))` (`noteNumber: real -> int`).

Floats are modelled as mathematical reals, with NaN as a separate case.

Three behaviours of the code that the model keeps as written:

- The render filter keeps timestamps in the half-open interval `(now - duration, now]`,
  not a closed one.
- The history is bounded by entry count (FIFO), not by time.
- Timestamp order in the history is not guaranteed by the code. `HistoryStaysOrdered`
  proves it only under the assumption that the clock readings never decrease.

## Model

| member | source | states |
|---|---|---|
| `Window.Last` | scripts/Testing.py:100-101 | the retained window has length `min(len, n)` and is the suffix of its input of that length |
| `Window.LastOfLast` | scripts/Testing.py:99-101 | truncating the window before appending the next block loses nothing that a later truncation would keep |
| `Window.LastOfLongTail` | scripts/Testing.py:95-96 | once at least `n` new elements have arrived, nothing older is kept |
| `Window.SlideAllIsLast` | scripts/Testing.py:99-101 | after any sequence of blocks, the pitch buffer is the last `target` samples of everything fed, in order (prefix dropped, never suffix) |
| `Notes.Octave` | scripts/Testing.py:32 | the octave is the floor of `n / 12` minus one: `12 * (o + 1) <= n < 12 * (o + 2)`, negative `n` included |
| `Notes.NoteIndex` | scripts/Testing.py:31 | the note index is in `[0, 12)`, so it indexes the 12 note names, and `n == 12 * (octave + 1) + index` |
| `Notes.NatToDecimal` | scripts/Testing.py:33 | a natural number's rendering is a non-empty digit string without leading zeros |
| `Notes.IntToDecimal` | scripts/Testing.py:33 | an integer's rendering starts with `-` exactly when the integer is negative |
| `Notes.NoteName` | scripts/Testing.py:31-33 | a note label is at least two characters long and starts with a note letter `A`..`G` |
| `Notes.HzToNoteIsSentinel` | scripts/Testing.py:27-29 | `hz_to_note` returns the dash exactly when the frequency is NaN or not positive (both directions) |
| `Notes.NoteNameExamples` | scripts/Testing.py:26-33 | note 69 is "A4", 60 is "C4", 61 is "C#4", 0 is "C-1", -1 is "B-2" |
| `Notes.ParseNatOfDecimal` | scripts/Testing.py:33 | reading a natural number's decimal rendering gives the number back |
| `Notes.ParseIntOfDecimal` | scripts/Testing.py:33 | reading an integer's decimal rendering (minus sign included) gives the integer back |
| `Notes.ParseNoteName` | scripts/Testing.py:31-33 | reading a note label back gives its MIDI note number |
| `Notes.NoteNameInjective` | scripts/Testing.py:31-33 | distinct note numbers get distinct labels |
| `Spectrogram.Clip01` | scripts/Testing.py:94 | `clip(x, 0, 1)` lies in `[0, 1]`: it is `x` inside the range, 0 below it and 1 above it |
| `Spectrogram.Intensity` | scripts/Testing.py:94 | every written spectrogram value `clip(x * gain / fft_size, 0, 1)` lies in `[0, 1]` |
| `Spectrogram.ScaledColumn` | scripts/Testing.py:94 | the new column has one value per frequency bin, each in `[0, 1]` |
| `Spectrogram.GainMonotone` | scripts/Testing.py:94 | a higher gain never lowers an intensity; it strictly raises a positive intensity that is below the clip |
| `Spectrogram.Shift` | scripts/Testing.py:95-96 | one update keeps the column count; new column `j` is old column `j + 1`; the last column is the new one; equivalently it keeps the last `n_blocks` columns |
| `Spectrogram.ShiftAll` | scripts/Testing.py:95-96 | any number of updates keeps the column count |
| `Spectrogram.ShiftAllIsLast` | scripts/Testing.py:95-96 | after any number of updates, the columns are the last `n_blocks` of the initial ones followed by the written ones |
| `Spectrogram.LastColumnsAfterEnoughUpdates` | scripts/Testing.py:95-96 | after `k >= n_blocks` updates, the matrix is exactly the last `n_blocks` written columns, oldest at index 0 |
| `AudioCapture.DerivedSizes` | scripts/Testing.py:22-38 | the sizes are those the settings give: 13230 samples of pitch window (`int(44100 * 0.3)`), 215 columns (`int(5 * 44100 / 1024)`), 513 frequency bins (`1024 / 2 + 1`) |
| `AudioCapture.ColumnsOf` | scripts/Testing.py:39 | the column view of the matrix has one column per block, each with one value per bin |
| `AudioCapture.NextColumn` | scripts/Testing.py:95 | the roll takes column `j + 1` into place `j`, and column 0 into the last place |
| `AudioCapture.RollLeft` | scripts/Testing.py:95 | `np.roll(spec_data, -1, axis=1)` is a new matrix of the same shape; column `j` is old column `j + 1`, wrapping round at the end |
| `AudioCapture.ColumnsOfShifted` | scripts/Testing.py:95-96 | a pointwise left shift plus a last-column write is, column by column, `Shift` |
| `AudioCapture.ShiftedKeepsRange` | scripts/Testing.py:94-96 | writing a clipped column after the shift keeps every matrix value in `[0, 1]` |
| `AudioCapture.Scroll` | scripts/Testing.py:95-96 | the roll followed by the last-column write yields a fresh matrix equal to `Shift` of the old columns and the new column |
| `AudioCapture.AppendThenEvict` | scripts/Testing.py:107-109 | when the history is within its cap, `append` followed by at most one `pop(0)` keeps exactly the last `n_blocks` entries |
| `AudioCapture.HistoryStaysOrdered` | scripts/Testing.py:107-109 | if timestamps are appended in non-decreasing order, the bounded history stays time-ordered |
| `AudioCapture.AudioState.constructor` | scripts/Testing.py:20-39 | start-up state: an all-zero `n_freq_bins x n_blocks` matrix, an empty sample window, an empty history, and `frame_counter` 0 (line 86) |
| `AudioCapture.AudioState.AudioCallback` | scripts/Testing.py:87-109 | keeps the shape, the `[0, 1]` range and both caps. The matrix is scrolled with the new clipped column last. The buffer is the last `target` samples of `old ++ block`. The counter goes up by exactly 1. An entry `(now, estimate of the new buffer)` is appended, oldest evicted past `n_blocks`, exactly when the new counter is divisible by `pitch_interval_frames`; otherwise the history is unchanged |
| `Render.Visible` | scripts/Testing.py:140-145 | the kept points are no more than the entries; each has relative time in `(0, duration]` and positive pitch |
| `Render.VisibleAppend` | scripts/Testing.py:145-148 | filtering commutes with concatenation, so history order is preserved |
| `Render.VisibleMembership` | scripts/Testing.py:141-148 | a point is handed to the line and dots exactly when some entry with `0 < t - now + duration <= duration` and `pitch > 0` maps to it |
| `Render.VisibleEmpty` | scripts/Testing.py:145-146 | the line and dots get no points exactly when no entry passes the mask |
| `Render.LatestVisible` | scripts/Testing.py:151 | the last point handed over comes from the last entry that passes the mask |
| `Render.UpdatePlot` | scripts/Testing.py:139-156 | an empty history leaves the overlay untouched. Otherwise line and dots get the visible points, and the label is "no pitch" exactly when none are visible. A shown label has a positive pitch and that pitch's note name, never the dash |
| `Render.LabelIsLatestVisible` | scripts/Testing.py:151-152 | the label shows the pitch of the last visible entry and its note name |
| `Render.ClearedWhenNothingVisible` | scripts/Testing.py:153-156 | with a non-empty history and nothing visible, line and dots are cleared and the label is "Pitch: — Hz (—)" |

## Left out

- The Hann window and `np.fft.rfft` (lines 92-93) are floating-point library numerics. The block's magnitudes are an input of length `n_freq_bins`.
- `np.log2` and `round` in `hz_to_note` (lines 30-32) are floating point. The rounded note number is the parameter `noteNumber`.
- `parselmouth_pitch` (lines 72-83) wraps the Praat library: a median of voiced frames, NaN when no frame is voiced, and NaN when the pitch analysis (lines 76-80) raises. It is the parameter `estimator`, returning a number or NaN.
- A failure while building the `parselmouth.Sound` or reading its duration (lines 73-75) is outside the `try`: it escapes the callback as an exception and is not modelled, since `estimator` is total.
- Float infinities, rounding and float32 storage are not modelled: samples, magnitudes and times are reals.
- `time.time()` is the parameter `now`. Clock readings are not assumed monotonic.
- The pass-through `outdata[:] = indata` (line 89) is device I/O.
- `print` diagnostics, the synthetic "sanity injection" of pitch points (lines 122-128) and the forced marker size (line 149) are debugging artifacts.
- The pitch label's `.1f` formatting is not modelled: the label carries the pitch value and the note string.
- The spectrogram image commit, its extent and the axis limits (lines 133-137) are drawing calls, as are all figure, slider, animation and stream setup (lines 41-69, 166-177).
- Where the pitch points land on screen is not modelled. The x-limits and the image extent
  (lines 134-135) are absolute clock times `(now - duration, now)`, but the line and dots get
  the relative x-coordinates `t - now + duration` (lines 141, 147-148), which lie in
  `(0, duration]`. With `now` a wall-clock time, those points fall outside the view. The model
  keeps the data as the code passes it; since drawing is left out, it does not capture that
  the overlay is not shown.
- The audio thread and the render timer share the globals concurrently. Each callback and each render step is modelled as one sequential step.
- The device-selection script `scripts/.ipynb_checkpoints/audio_input-checkpoint.py` is not part of this model: it only does device I/O.
- The settings are fixed constants, as in the source. Python's `pitch_buffer[-0:]` would keep the whole buffer, but the target size is 13230, never 0, so that case is not modelled.
