# ArduinoAudioSynth: sample converter back end and PWM output stage

This project models two small pieces of the ArduinoAudioSynth repository in Dafny and proves properties of them.

- **`SampleConverter`** (`sample_converter.dfy`) covers the integer back end of the WAV-to-firmware converter script. It models:
  - the peak scan `findPeak`;
  - the loop that pops trailing zeros off the quantised samples;
  - the formatter that renders the samples as a `const char sample_XX[] PROGMEM` array.

  The formatter renders each value with `%4i`. It groups the values eight per line with `izip_longest`, strips the `None` fill from the last group with `takewhile`, renders each line as `"  " + ", ".join(...) + ","`, and wraps the lines in the header and the `};` footer. `Convert` runs these steps in the script's order, starting from the already quantised samples.
- **`EwAudioSynth`** (`ew_audio_synth.dfy`) covers the three `EwAudioSynth::audioWrite` overloads. Each turns an `int8_t`, `uint16_t` or `int16_t` sample into the 8-bit PWM compare value. The hardware register `PWM_VALUE` is the field `pwmValue` of class `AudioSynth`, and each method sets it. Dafny has no overloading, so the three overloads are named `AudioWrite`, `AudioWriteU16` and `AudioWriteI16`.

Modelling notes:
- `findPeak(samples)` scans the global `convdata`, not its parameter. Its only call passes `convdata` itself, so `FindPeak` takes the sequence as its parameter.
- The seeds `hi = -1` and `lo = 1` never decide the result on a non-empty input. The result is always the largest sample magnitude, whatever the range of the samples. A description as `max(|max|, |min|)` agrees with this on non-empty input; on empty input the code gives 1.
- The trim loop fails on an all-zero or empty list, because it reads `convdata[-1]` of an empty list. `TrimTrailingZeros` therefore requires a non-zero sample. `TrimmedEmptyIffSilent` shows that this is exactly the case where the loop would run off the list.
- `lines[-1]` fails on an empty list too. `GroupLines` and `SourceText` therefore require a non-empty list. The trim guarantees this.
- Python's `None` fill is `Option.None`. `GroupLines` proves that none is left, which is the condition under which `", ".join` succeeds.
- `uint16_t` is the bit-vector `bv16`, since its overload masks it with `& 0x00FF`. The signed types are integer subset types. The store into the 8-bit register is `ToRegister`, which keeps the low eight bits.

## Model

| member | source | states |
|---|---|---|
| `SampleConverter.FindPeak` | extra/tools/sample-converter/sample-converter.py:35-41 | The result bounds the magnitude of every sample. On a non-empty input it equals the magnitude of some sample, so it is the maximum magnitude. On an empty input it is 1. It is 0, the divisor of the later normalisation, exactly when the input is non-empty and all zero. |
| `SampleConverter.Trimmed` | extra/tools/sample-converter/sample-converter.py:49-50 | The trimmed list is a prefix of the input. Only zeros follow it in the input. It is empty or ends in a non-zero value. |
| `SampleConverter.TrimTrailingZeros` | extra/tools/sample-converter/sample-converter.py:49-50 | The pop loop, given a list with a non-zero value, returns `Trimmed` of it. The result is non-empty and ends in a non-zero value. It is a prefix of the input, and the input past it is all zeros. |
| `SampleConverter.TrimmedEmptyIffSilent` | extra/tools/sample-converter/sample-converter.py:49 | The trim leaves nothing exactly when the list is empty or all zero. These are the inputs on which the loop indexes an empty list. |
| `SampleConverter.TrimmedOfPadded` | extra/tools/sample-converter/sample-converter.py:49-50 | A list that is empty or ends in a non-zero value comes back unchanged from the trim after any number of zeros is appended. |
| `SampleConverter.TrimmedIdempotent` | extra/tools/sample-converter/sample-converter.py:49-50 | Trimming a trimmed list changes nothing. |
| `SampleConverter.FormatField` | extra/tools/sample-converter/sample-converter.py:55 | `%4i` yields at least four characters, and more only when the decimal rendering alone is longer, in which case the field is exactly that rendering. `FieldJustified`, `FieldWidth` and `FieldRoundTrip` give the rest. |
| `SampleConverter.FieldJustified` | extra/tools/sample-converter/sample-converter.py:55 | The field ends with the decimal rendering of the value, and only spaces come before it. |
| `SampleConverter.NatToDecimal` | extra/tools/sample-converter/sample-converter.py:55 | The decimal rendering is non-empty, all digits, and has no leading zero except for 0 itself. |
| `SampleConverter.DecimalLength` | extra/tools/sample-converter/sample-converter.py:55 | A number has at most k digits exactly when it is below 10^k. |
| `SampleConverter.FieldWidth` | extra/tools/sample-converter/sample-converter.py:55 | `%4i` yields at least four characters. It yields exactly four if and only if the value lies in [-999, 9999]. |
| `SampleConverter.ParseNatOfDecimal` | extra/tools/sample-converter/sample-converter.py:55 | Reading the digits back gives the number. |
| `SampleConverter.FieldRoundTrip` | extra/tools/sample-converter/sample-converter.py:55 | Every `%4i` field reads back as its value: padding spaces, an optional minus sign, then digits. |
| `SampleConverter.Grouped` | extra/tools/sample-converter/sample-converter.py:58-62 | Grouping N values by eight gives ⌈N/8⌉ groups. Every group holds 1 to 8 values, and every group but the last holds exactly 8. |
| `SampleConverter.GroupedAt` | extra/tools/sample-converter/sample-converter.py:58-62 | Group i holds min(8, N - 8i) values. Its value j is input value 8i + j. |
| `SampleConverter.FlattenGrouped` | extra/tools/sample-converter/sample-converter.py:59-62 | Concatenating the groups in order gives back exactly the input: nothing is lost, duplicated or reordered. |
| `SampleConverter.PaddedGroups` | extra/tools/sample-converter/sample-converter.py:59 | `izip_longest` over eight copies of one iterator gives ⌈N/8⌉ rows of exactly eight entries. Entry j of row i is the `None` fill exactly when 8i + j ≥ N, so every row but the last is free of fill. `PaddedGroupsAt` and `GroupLines` give the values. |
| `SampleConverter.PaddedGroupsAt` | extra/tools/sample-converter/sample-converter.py:59 | Value t of the input is entry t mod 8 of row ⌊t/8⌋. |
| `SampleConverter.TakeWhileSome` | extra/tools/sample-converter/sample-converter.py:62 | `takewhile(x is not None)` returns the longest prefix of present values. It holds no `None`, and a `None` follows it whenever it is shorter than the row. |
| `SampleConverter.GroupLines` | extra/tools/sample-converter/sample-converter.py:59-62 | Grouping with `None` fill and then overwriting the last group with its fill stripped gives ⌈N/8⌉ groups. No `None` is left, and group i is exactly the reference group i of `Grouped`. |
| `SampleConverter.RenderLine` | extra/tools/sample-converter/sample-converter.py:65 | A line is three characters longer than its joined fields, starts with two spaces and ends with a comma. `RenderLineLayout` fixes every character when the fields are four wide. |
| `SampleConverter.RenderLineLayout` | extra/tools/sample-converter/sample-converter.py:65 | A line of k four-character fields is two spaces, then field c at columns 2+6c to 5+6c, then ", " between fields, then a final comma: 6k+1 characters. |
| `SampleConverter.RenderLineNoNewline` | extra/tools/sample-converter/sample-converter.py:65 | A rendered line contains no line break. |
| `SampleConverter.Convert` | extra/tools/sample-converter/sample-converter.py:49-70 | The pipeline from the quantised samples (trim, render each value, group, render each line, assemble) produces `SourceText` of the trimmed samples. |
| `SampleConverter.Assemble` | extra/tools/sample-converter/sample-converter.py:68-70 | The text is 40 characters longer than the joined lines. It starts with the header line and its line break, and it ends with the line break, the `};` footer and a final line break. `AssembleBody` places the joined lines inside. |
| `SampleConverter.SourceText` | extra/tools/sample-converter/sample-converter.py:55-70 | The text written for a non-empty list has at least 40 characters and starts and ends with the header and footer. `SampleAt`, `RecoverSample`, `TextLength`, `SourceTextInjective` and `TextLineCount` state its layout. |
| `SampleConverter.AssembleBody` | extra/tools/sample-converter/sample-converter.py:68-70 | The assembled text is the joined lines with 36 characters before them (the header line and the `{` line) and 4 after them (`\n};\n`). |
| `SampleConverter.SampleAt` | extra/tools/sample-converter/sample-converter.py:55-70 | When every value fits its column, value t is rendered by `%4i` at offset 36 + 50·⌊t/8⌋ + 2 + 6·(t mod 8) of the output text. |
| `SampleConverter.RecoverSample` | extra/tools/sample-converter/sample-converter.py:55-70 | Reading the four characters at that offset gives value t back. |
| `SampleConverter.TextLength` | extra/tools/sample-converter/sample-converter.py:55-70 | For values in the column range, the text has 6N + 2⌈N/8⌉ + 39 characters. |
| `SampleConverter.SourceTextInjective` | extra/tools/sample-converter/sample-converter.py:55-70 | Two lists of values in the column range with the same text are equal. |
| `SampleConverter.TextLineCount` | extra/tools/sample-converter/sample-converter.py:58-70 | The text holds ⌈N/8⌉ + 3 line breaks. These end the header line, the `{` line, one line per group and the `};` line. |
| `EwAudioSynth.ToRegister` | src/EwAudioSynth.h:43 | A store into the 8-bit register keeps the value modulo 256. Values in [0, 255] are stored unchanged. |
| `EwAudioSynth.LowByte` | src/EwAudioSynth.h:52 | `& 0x00FF` gives the value modulo 256: at most 255, with values up to 255 unchanged. |
| `EwAudioSynth.ClipU16` | src/EwAudioSynth.h:47-50 | The clip gives at most 255. It passes values up to 255 through and turns larger ones into 255. |
| `EwAudioSynth.ClampI16` | src/EwAudioSynth.h:57-59 | The clamp lands in [-128, 127]. It passes values in that range through, turns larger ones into 127 and smaller ones into -128. |
| `EwAudioSynth.AudioSynth.AudioWrite` | src/EwAudioSynth.h:41-44 | Only the register changes, and it becomes sample + 128, which lies in [0, 255]. |
| `EwAudioSynth.AudioSynth.AudioWriteU16` | src/EwAudioSynth.h:45-53 | Only the register changes, and it becomes min(sample, 255). |
| `EwAudioSynth.AudioSynth.AudioWriteI16` | src/EwAudioSynth.h:54-62 | Only the register changes. It becomes 0 below -128, 255 above 127, and sample + 128 in between. |
| `EwAudioSynth.MaskAfterClipIsNoOp` | src/EwAudioSynth.h:47-52 | The mask never changes a clipped value. |
| `EwAudioSynth.MaskAloneWraps` | src/EwAudioSynth.h:47-52 | Without the clip, every value above 255 whose low byte is not 0xFF would be masked to a level other than the clipped one, and so other than what the overload writes. |
| `EwAudioSynth.I16AgreesWithSample` | src/EwAudioSynth.h:41-62 | For inputs in [-128, 127], the `int16_t` overload writes the same level as the `Sample` overload. |
| `EwAudioSynth.SampleLevelMonotone` | src/EwAudioSynth.h:43 | A larger `Sample` never gives a lower level. |
| `EwAudioSynth.U16LevelMonotone` | src/EwAudioSynth.h:47-52 | A larger `uint16_t` never gives a lower level. |
| `EwAudioSynth.I16LevelMonotone` | src/EwAudioSynth.h:57-61 | A larger `int16_t` never gives a lower level. |
| `EwAudioSynth.ClampIdempotent` | src/EwAudioSynth.h:57-59 | Clamping an already clamped value changes nothing. |
| `EwAudioSynth.SampleLevelBijective` | src/EwAudioSynth.h:43 | Distinct samples give distinct levels, and every level 0 to 255 is reached. |

## Left out

- Argument parsing and the error exit (sample-converter.py:13-20) are command-line plumbing. `sys` is never imported, so that error path would itself raise a `NameError`.
- Decoding with `soundfile.read` and resampling with `resampy.resample` (sample-converter.py:29,32) are calls into libraries whose behaviour is not visible here.
- Normalisation and quantisation (sample-converter.py:44-45,48) are floating-point arithmetic. `int()` truncates toward zero, and a correctly rounded `s * (1/peak)` never exceeds 1 in magnitude, so `int(s * 127)` cannot leave [-127, 127]. Rounding only decides whether the peak sample quantises to ±127 or to ±126. The floating-point paths that raise instead are not captured either: a silent input divides by zero at line 44, and a tiny peak can make `1/peak` overflow, and `int()` then fails on the scaled values. The model starts from the quantised integer list.
- FindPeak: samples are exact reals, so floating-point rounding, NaN and infinities are not modelled.
- The file write and the `print` calls (sample-converter.py:52,73-77) are I/O.
- `EwAudioSynth::begin()` (src/EwAudioSynth.cpp) only sets pin modes and timer registers, so it has no behaviour to model.
- The `EwAudioSynthLoop()` interrupt macro and the per-board choice of `PWM_PIN`, `PWM_VALUE` and `PWM_INTERRUPT` (EwAudioSynth.h:10-34,65) are hardware configuration.
- AudioSynth: the register is a field of one object rather than a global hardware register. Interrupt timing and concurrent access to it are not modelled.
- SampleAt, RecoverSample, TextLength and SourceTextInjective assume every value lies in [-999, 9999]. A wider value takes more than four characters and shifts the later columns. The script's quantised values always lie in [-127, 127], inside that range.
