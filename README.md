# DTMF decoder, modelled in Dafny

This project models the decoding core of a DTMF (dual-tone multi-frequency)
decoder, which turns telephone key tones into the keys that sent them:

- **Helpers** (`helpers.dfy`) covers the signal analysis:
  - a Goertzel filter bank, which computes the DFT terms of the bins covering the requested frequency ranges;
  - snapping a measured frequency to the nearest entry of a table, within a tolerance;
  - picking the two strongest bins of a spectrum as the (low, high) tone pair.
- **Dtmf** (`dtmf.dfy`) covers the decoder loop:
  - the constants and the Q.23 keypad table;
  - the debounce rule that turns one analysis window after another into keypress events. It needs 50 ms of accumulated tone before a key, and at least 100 ms between keys;
  - a `Decoder` class holding the loop's two state variables, and the loop itself over a finite sequence of windows.
- **Commands** (`commands.dfy`) covers the command demo:
  - a `CommandDecoder` class whose key buffer collects `*<code>#`;
  - the lookup of the code in the command map;
  - the reset of the buffer after a command runs.
- **Wrappers** (`wrappers.dfy`) holds `Option` and `Result`. They stand for the source's `None` returns and raised exceptions.

Design choices:

- All arithmetic is over exact reals.
- The trigonometric coefficients of the Goertzel filter are parameters:
  - `cos2pi(x)` stands for cos(2πx);
  - `sin2pi(x)` stands for sin(2πx).
- Wall-clock time enters as a parameter too (`now`, and `start` for the reading taken before the first window).
- The joke and activity web APIs enter as the `Replies` they produced.

Mutable state is modelled with classes:

- `Dtmf.Decoder` holds `current_signal_time` and `current_time`;
- `Commands.CommandDecoder` holds `command`.

Each method's postcondition ties its new state and its result to a pure function: `Dtmf.Next` and `Commands.Process`. The properties are proved as lemmas about those functions:

- keys are emitted only on a window that completes a streak of found pairs whose length is a positive multiple of five;
- emissions are spaced at least 100 ms apart;
- `*code#` runs exactly that code.

A key needs a fifth found window, not a fourth. `decoded_signals` tests `current_signal_time >= MIN_SIGNAL_DURATION` before it adds the current window's 15 ms. When the fourth found window is tested, the accumulator holds only 45 ms, so the test fails; that window then brings it to 60 ms, and the fifth found window is the first to pass the test. `Dtmf.FourWindowsThenMiss` shows that four found windows followed by a miss emit nothing, and `Dtmf.EmitsOnFifthWindow` states exactly which windows emit.

## Model

| member | source | states |
|---|---|---|
| Helpers.Ceil | dtmf_decoder/helpers.py:34 | `math.ceil`: the least integer not below `x` |
| Helpers.Interval | dtmf_decoder/helpers.py:37 | `range(lo, hi)` holds exactly the integers `lo <= k < hi` |
| Helpers.KStart | dtmf_decoder/helpers.py:33 | `k_start = int(math.floor(f_start / f_step))`, the first bin of a range (stated by `SelectBinsUnion`) |
| Helpers.KEnd | dtmf_decoder/helpers.py:34 | `k_end = int(math.ceil(f_end / f_step))`, one past the last bin of a range and the value the range error reports (stated by `SelectBinsFailure`, `SelectBinsUnion`) |
| Helpers.SelectBinsZeroStep | dtmf_decoder/helpers.py:25-33 | a zero frequency step (zero sample rate) raises the division error on the first range; with no ranges the bin set is empty |
| Helpers.SelectBinsFailure | dtmf_decoder/helpers.py:31-36 | bin selection fails exactly when some range's top bin `ceil(f_end / f_step)` exceeds `window_size - 1`, and the error carries the top bin of the first such range |
| Helpers.SelectBinsUnion | dtmf_decoder/helpers.py:30-37 | on success the bin set is exactly the union of the half-open intervals `[floor(f_start/f_step), ceil(f_end/f_step))` of the ranges |
| Helpers.SelectBinsFailureSticks | dtmf_decoder/helpers.py:31-36 | once a range has raised, the later ranges do not change the outcome |
| Helpers.ComputeBins | dtmf_decoder/helpers.py:30-37 | the loop over the ranges computes the bin selection, error included |
| Helpers.Ascending | dtmf_decoder/helpers.py:43 | the order in which the bin set is visited: strictly increasing, with exactly the bins of the set |
| Helpers.AscendingUnique | dtmf_decoder/helpers.py:43 | two strictly increasing sequences with the same elements are equal, so that visiting order is unique |
| Helpers.SelectBins | dtmf_decoder/helpers.py:30-37 | the bin selection, range by range: the division error on a zero step, the range error on the first too-high top bin, else the union of the `[k_start, k_end)` intervals (stated by `SelectBinsZeroStep`, `SelectBinsFailure`, `SelectBinsUnion`) |
| Helpers.Recurrence | dtmf_decoder/helpers.py:51-54 | the loop state `(d1, d2)` after the recurrence has consumed the samples (stated by `RecurrenceIsSecondOrder`) |
| Helpers.RecurrenceStep | dtmf_decoder/helpers.py:53 | one step `y = samples[n] + w_real * d1 - d2` (stated by `RecurrenceIsSecondOrder`, `RunRecurrence`) |
| Helpers.Coefficients | dtmf_decoder/helpers.py:57-59 | the `(0.5*w_real*d1 - d2, w_imag*d1, d2² + d1² - w_real*d1*d2)` triple (its power stated by `PowerIsSquaredMagnitude`) |
| Helpers.Term | dtmf_decoder/helpers.py:51-59 | the triple computed from the recurrence's final state (stated by `SilentWindow`, `PowerIsSquaredMagnitude`) |
| Helpers.BinTerm | dtmf_decoder/helpers.py:46-59 | the term of bin `k`, with `w_real = 2cos(2πk/N)` and `w_imag = sin(2πk/N)` (stated by `ComputeBin`) |
| Helpers.NormalizedFrequency | dtmf_decoder/helpers.py:46 | `f = k * f_step_normalized`, the bin frequency as a fraction of the sample rate, fed to the coefficients (stated by `ComputeBin`) |
| Helpers.BinFrequency | dtmf_decoder/helpers.py:62 | the reported frequency `k * sample_rate / N` of bin `k` (stated by `ComputeBin`) |
| Helpers.ClosestIndex | dtmf_decoder/helpers.py:74 | the position `min` with a key picks: a valid index, the first of the nearest (stated by `ClosestIndexIsFirstNearest`) |
| Helpers.RecurrenceIsSecondOrder | dtmf_decoder/helpers.py:51-54 | after the loop, `(d1, d2)` are `y(N)` and `y(N-1)` of the recurrence `y(n) = s[n-1] + w*y(n-1) - y(n-2)` started from zeros |
| Helpers.RunRecurrence | dtmf_decoder/helpers.py:51-54 | the inner loop leaves the recurrence's final state |
| Helpers.SilentWindow | dtmf_decoder/helpers.py:51-60 | an all-zero window gives the triple (0, 0, 0) at every bin |
| Helpers.PowerIsSquaredMagnitude | dtmf_decoder/helpers.py:47-59 | with `w_real = 2cos θ` and `w_imag = sin θ`, the reported power equals re² + im² of the reported term, and is never negative |
| Helpers.ComputeBin | dtmf_decoder/helpers.py:45-62 | one pass of the bin loop yields the bin frequency `k * sample_rate / N` and the bin's Goertzel triple |
| Helpers.TermsInOrder | dtmf_decoder/helpers.py:39-62 | the bin loop yields, bin by bin in ascending order, each bin's frequency and triple, in two equally long lists |
| Helpers.Goertzel | dtmf_decoder/helpers.py:7-64 | an empty window raises the division error; otherwise the result is the bin selection's error, or the spectrum of the selected bins in ascending order |
| Helpers.ClosestIndexIsFirstNearest | dtmf_decoder/helpers.py:74 | `min` with a key picks an entry nearest to `n` and strictly nearer than every entry before it |
| Helpers.FindClosestFreq | dtmf_decoder/helpers.py:67-81 | the result is present exactly when some entry is within `deviation` of `n`; a present result is a table entry with `n` in `[entry - deviation, entry + deviation]` |
| Helpers.FindClosestFreqIsFirstNearest | dtmf_decoder/helpers.py:74-81 | a present result is nearest to `n`, and the first of the nearest in list order |
| Helpers.ExactMatchSnapsToItself | dtmf_decoder/helpers.py:67-81 | with the default zero deviation every table entry snaps to itself |
| Helpers.Powers | dtmf_decoder/helpers.py:95 | the power column of the results, position by position |
| Helpers.Largest | dtmf_decoder/helpers.py:99-103 | the value at the top of the sorted powers: it occurs in the list and bounds every power |
| Helpers.FirstIndexOf | dtmf_decoder/helpers.py:106-110 | `np.where(...)[0][0]`: the first position that holds the value |
| Helpers.SecondLargest | dtmf_decoder/helpers.py:99-102 | the value second from the top of the sorted powers: not above the largest, held at a position other than the first largest, and bounding every other position |
| Helpers.TopTwo | dtmf_decoder/helpers.py:98-103 | the two values sit at distinct positions, and of any two positions one holds no more than the second largest |
| Helpers.GetFrequencyEnergyPairs | dtmf_decoder/helpers.py:84-119 | the two strongest bins, the lower frequency first; their energies are the largest and second-largest powers; each tone is the first bin with its power; when the two frequencies are equal, the largest comes first |
| Helpers.TiedPowersShareFrequency | dtmf_decoder/helpers.py:106-117 | when the two largest powers are equal, both tones report the frequency of the first bin with that power |
| Dtmf.SampleSizeIsCeiling | dtmf_decoder/__main__.py:26-31 | `SAMPLE_SIZE = ceil(8000 * 0.015) = 120` |
| Dtmf.KeymapMatchesKeypad | dtmf_decoder/__main__.py:54-74 | each (row tone, column tone) cell maps to its key of the 4×4 keypad |
| Dtmf.KeymapKeysAreGrid | dtmf_decoder/__main__.py:54-74 | the map's keys are exactly the pairs of a `LOW` tone and a `HIGH` tone |
| Dtmf.KeymapDistinct | dtmf_decoder/__main__.py:54-71 | the keypad's inverse recovers each tone pair from its key, so no two pairs share a key |
| Dtmf.BandsSeparate | dtmf_decoder/__main__.py:73-74 | every row tone lies below every column tone |
| Dtmf.DtmfBinSelection | dtmf_decoder/__main__.py:160 | at 8000 Hz and 120 samples the two ranges select bins 10..14 and 18..24 without a range error |
| Dtmf.DtmfBinOrder | dtmf_decoder/__main__.py:160 | those bins are visited as 10, 11, …, 14, 18, …, 24 |
| Dtmf.DtmfSpectrum | dtmf_decoder/__main__.py:160 | the `(freqs, results)` that `goertzel` returns over the two DTMF ranges, bin by bin in the order 10..14, 18..24 (stated by `Decoder.ProcessFrames`) |
| Dtmf.WindowOf | dtmf_decoder/__main__.py:160-165 | the `(pair_low, pair_high)` that `get_frequency_energy_pairs` picks from that spectrum (stated by `Decoder.ProcessFrames`) |
| Dtmf.SnapLow | dtmf_decoder/__main__.py:167 | `closest_low`: the measured low tone snapped to `LOW` within 50 Hz (stated by `FoundPairIffSnapped`, `OneBandNoKey`, `KeyOfIsKeypadCell`) |
| Dtmf.SnapHigh | dtmf_decoder/__main__.py:168 | `closest_high`: the measured high tone snapped to `HIGH` within 50 Hz (stated by `FoundPairIffSnapped`, `OneBandNoKey`, `KeyOfIsKeypadCell`) |
| Dtmf.FoundPairIffSnapped | dtmf_decoder/__main__.py:167-172 | `closest_low and closest_high` is true exactly when both tones snapped, since no table entry is zero |
| Dtmf.OneBandNoKey | dtmf_decoder/__main__.py:167-172 | two tones that are both below 1159 Hz, or both above 991 Hz, never make a pair |
| Dtmf.SnappedPairInKeymap | dtmf_decoder/__main__.py:174-175 | the `KEYMAP` lookup of a found pair never raises |
| Dtmf.KeyOfIsKeypadCell | dtmf_decoder/__main__.py:167-175 | the pressed key is the keypad cell of the row and the column nearest to the measured tones |
| Dtmf.Truthy | dtmf_decoder/__main__.py:172 | Python truthiness of a snapped tone: present and non-zero (stated by `FoundPairIffSnapped`) |
| Dtmf.FoundPair | dtmf_decoder/__main__.py:172 | `found_freq_pair`: both tones snapped to their tables (stated by `FoundPairIffSnapped`, `OneBandNoKey`) |
| Dtmf.Emits | dtmf_decoder/__main__.py:170-180 | whether a window yields a key: energies, accumulated duration, found pair and spacing (stated by `Next`, `EmitsOnFifthWindow`) |
| Dtmf.Accumulate | dtmf_decoder/__main__.py:194-197 | the accumulator update: one window's duration added while below the threshold on a found pair, else zero (stated by `StreakDurationValues`, `RunAccumulator`) |
| Dtmf.KeyOf | dtmf_decoder/__main__.py:175 | the `KEYMAP` entry of the snapped pair (stated by `SnappedPairInKeymap`, `KeyOfIsKeypadCell`) |
| Dtmf.EventOf | dtmf_decoder/__main__.py:183-188 | the yielded record: the key and the measured, unsnapped tones and energies (stated by `Next`) |
| Dtmf.Next | dtmf_decoder/__main__.py:167-197 | a window yields an event exactly when both energies exceed 5, at least 50 ms had accumulated, a pair was found, and 100 ms have passed since the last key; the event carries the key and the measured tones, and the emission time moves to `now` only then |
| Dtmf.StreakDurationValues | dtmf_decoder/__main__.py:194-197 | along a streak of found windows the accumulator cycles 0, 15, 30, 45, 60 ms |
| Dtmf.Run | dtmf_decoder/__main__.py:153-192 | the loop yields at most one event per window |
| Dtmf.RunAccumulator | dtmf_decoder/__main__.py:150-197 | after any windows, the accumulator holds the duration of the current streak of found pairs |
| Dtmf.ThresholdAfterFour | dtmf_decoder/__main__.py:171-197 | the 50 ms test passes exactly after 4, 9, 14, … found windows |
| Dtmf.EmitsOnFifthWindow | dtmf_decoder/__main__.py:167-197 | a window emits exactly when it completes a streak of found pairs whose length is a positive multiple of five, its energies pass, and 100 ms have passed since the last key |
| Dtmf.NoEarlyEmission | dtmf_decoder/__main__.py:150-197 | the first four windows never emit |
| Dtmf.FourWindowsThenMiss | dtmf_decoder/__main__.py:167-197 | four found windows followed by a window without a pair emit nothing |
| Dtmf.RunSpacing | dtmf_decoder/__main__.py:151-183 | every key comes at least 100 ms after the start, any two keys at least 100 ms apart, and `current_time` holds the time of the latest key |
| Dtmf.Decoder.constructor | dtmf_decoder/__main__.py:150-151 | decoding starts with no accumulated tone and the clock reading at start |
| Dtmf.Decoder.Step | dtmf_decoder/__main__.py:167-197 | one loop pass on a window's strongest pair gives `Next`'s new state and event |
| Dtmf.Decoder.ProcessFrames | dtmf_decoder/__main__.py:157-197 | a block of 120 frames is analysed over the two DTMF ranges without an error, and the step runs on its two strongest bins |
| Dtmf.DecodedSignals | dtmf_decoder/__main__.py:146-197 | the loop over a finite sequence of windows yields exactly the events of `Run`, with their times |
| Commands.Execute | dtmf_decoder/command_decoder.py:93-97 | the result records the code; code `1234` gives `Hello, world!`; a code missing from the map gives the bad-command message naming it |
| Commands.BadCommandExactly | dtmf_decoder/command_decoder.py:93-97 | the output is the bad-command message naming the code exactly when the code is missing from the map, or its handler's reply lacks the expected field (a caught `KeyError`) |
| Commands.Process | dtmf_decoder/command_decoder.py:80-108 | a buffer not opened by `*` is cleared, with no result; `*…#` runs the code between the delimiters and resets the buffer; an opened buffer without `#` is kept, with no result; afterwards the buffer is empty, or opened and not yet terminated |
| Commands.PendingIsIdle | dtmf_decoder/command_decoder.py:80-108 | processing a buffer that is empty, or opened and not terminated, changes nothing |
| Commands.StrayKeyDiscarded | dtmf_decoder/command_decoder.py:81-82 | on an empty buffer any key but `*` is discarded |
| Commands.StartsWith | dtmf_decoder/command_decoder.py:81 | `str.startswith` on one character: the buffer is non-empty and opens with it (stated by `Process`) |
| Commands.EndsWith | dtmf_decoder/command_decoder.py:84 | `str.endswith` on one character: the buffer is non-empty and closes with it (stated by `Process`) |
| Commands.Handle | dtmf_decoder/command_decoder.py:51-65 | the three handlers: `hello` returns `Hello, world!`; the joke and activity handlers return the reply field after their label, or fail as `KeyError` when it is missing (the `Hello, world!` case stated by `Execute`, the `KeyError` case by `BadCommandExactly`) |
| Commands.BadCommand | dtmf_decoder/command_decoder.py:97 | the bad-command message, quoting the code (stated by `BadCommandExactly`, `EmptyCodeIsBad`) |
| Commands.Feed | dtmf_decoder/__main__.py:240-243 | the repeated `key` calls on decoded keys, each key with the replies its own call fetches: once any key was fed the buffer is empty or opened and not terminated, and there is at most one result per key |
| Commands.TypedCommand | dtmf_decoder/command_decoder.py:110-115 | typing `*`, a code without `#`, then `#` runs exactly that code, once, with the replies fetched on the `#` key, and leaves the buffer empty |
| Commands.TwoCommands | dtmf_decoder/command_decoder.py:110-115 | two typed commands in a row each run once, each with the replies fetched on its own `#` key, so typing a joke code twice can show two different jokes |
| Commands.EmptyCodeIsBad | dtmf_decoder/command_decoder.py:84-97 | `*#` runs the empty code, which yields the bad-command message |
| Commands.CommandDecoder.constructor | dtmf_decoder/command_decoder.py:37-38 | the buffer starts empty |
| Commands.CommandDecoder.ProcessCommand | dtmf_decoder/command_decoder.py:80-108 | the new buffer and the result are those of `Process` |
| Commands.CommandDecoder.Key | dtmf_decoder/command_decoder.py:110-117 | the key is appended before processing; the new buffer and the displayed result are those of `Process` on the extended buffer, and the buffer is left empty or opened and not terminated |

## Left out

- Audio capture, the `sounddevice` stream and playback are not modelled. A window enters as its frames (`ProcessFrames`) or directly as its strongest pair (`Step`, `DecodedSignals`).
- Wall-clock reads are not modelled. `time.time()` becomes the parameter `now`, and `start` stands for the reading taken before the loop. The two reads taken when a key is emitted (the spacing test and the new `current_time`) collapse into one `now`.
- Floating point is not modelled: the model uses exact reals. The 15 ms accumulator steps stay on the same side of the 50 ms threshold either way.
- `math.cos` and `math.sin` are not modelled; they are the parameters `cos2pi` and `sin2pi`.
- Errors raised by numpy on NaN or other degenerate powers are not modelled.
- The iteration order of a Python `set` of ints is not modelled; it is fixed as ascending, which is the order CPython gives for the small non-negative bins used here.
- Helpers.GetFrequencyEnergyPairs: with no results the `[:,2]` column slice of `np.array(results)` raises, and with one result `sorted_energies[-2]` raises; the model requires at least two results and a frequency for each. The decoder always supplies twelve.
- Helpers.SecondLargest: `argsort` sorts unstably, so which of several equal powers it sets aside is not modelled. Only the selected values are, and they do not depend on it.
- Helpers.FindClosestFreq: `min` on an empty table raises; the model requires a non-empty table. Both tables have four entries.
- The keypress event's `frames`, `freqs` and `results` fields are not modelled: they only feed the plot.
- Plotting (`plot_signal`), the banners, `clear_console`, `show_screen` and the console colour codes are not modelled. The bad-command message is modelled without its colour codes.
- The command-line entry point (`__main__` argument handling) and the unused `MIN_TONE_ENERGY` constant are not modelled.
- The joke and activity web requests are not modelled. `make_api_call`, `get_programming_joke` and `get_random_activity` enter through the fields read from their JSON replies (`Replies`). Every `key` call gets its own `Replies`, since each joke or activity command makes a fresh request; `Commands.Feed` takes one per key. Network and JSON decoding errors, which the source does not catch, are not modelled.
- `process_command` is modelled only with its default delimiters `*` and `#`, the only ones its caller uses.
- Dtmf.SampleSizeIsCeiling: `SAMPLE_SIZE` is written as the literal 120, and the lemma proves it equals the ceiling of 8000 × 0.015.
