# Punk Console core, modelled in Dafny

`cedargrove_punk_console` is a CircuitPython library that emulates the Atari
Punk Console, a two-timer stepped-tone generator, on a microcontroller's PWM
output. Its only computational code is three pieces of arithmetic, and this
project models and proves them:

- `map_range(x, in_min, in_max, out_min, out_max)` maps a value linearly from
  one range to another. It clamps the result to the output range, and the
  output range may be given in reverse order. A degenerate input range
  (`in_min == in_max`) uses the raw distance `x - in_min` as the scale factor,
  or one half when `x` equals `in_min`.
- `Punk_Console.__init__` conditions its inputs. The oscillator frequency is
  clamped to [20, 20000] Hz and the one-shot pulse width to [0.00005, 0.050] s.
  Then the oscillator wavelength `1 / frequency` is derived.
- `tone` begins by clamping its sample-buffer length. When `length * frequency`
  exceeds 350000, the length becomes `350000 // frequency`.

All arithmetic is over Dafny's `real`. The Python code works on floats, but what
it means to do is exact range mapping and clamping; IEEE rounding is not
modelled. Python's `min` and `max` are modelled with the argument order the
code uses (`Min`, `Max`). Python's `//` on floats is `.Floor` on the exact
quotient.

Files:

- `punk_console.dfy`, module `PunkConsoleCore`: the model and its properties.
- `real_arith.dfy`, module `RealArith`: small facts about real multiplication
  and division used by the proofs. It also holds the `Between` predicate
  ("lies between two endpoints, in either order").

The class docstring's input range for the pulse width
(`cedargrove_punk_console.py:104`, 500 µs to 500 ms) disagrees with the clamp
at line 98 (50 µs to 50 ms). The model follows line 98.

## Model

| member | source | states |
|---|---|---|
| `PunkConsoleCore.Min` | cedargrove_punk_console.py:91-92 | Python's `min` of two numbers: the result is at most each argument and is one of them. |
| `PunkConsoleCore.Max` | cedargrove_punk_console.py:91-92 | Python's `max` of two numbers: the result is at least each argument and is one of them. |
| `PunkConsoleCore.ClampToRange` | cedargrove_punk_console.py:90-92 | The closing clamp of `map_range`. The result lies between the output endpoints in either order. A value already between them is returned unchanged. For an increasing range, values at or below `out_min` become `out_min` and values at or above `out_max` become `out_max`. |
| `PunkConsoleCore.MapRange` | cedargrove_punk_console.py:73-92 | The result always lies between the output endpoints. For `out_min <= out_max` it lies in [out_min, out_max]. For a reversed range it lies in [out_max, out_min]. |
| `PunkConsoleCore.MapRangeUnclamped` | cedargrove_punk_console.py:88-92 | When the scale factor lies in [0, 1], clamping changes nothing: the result is `out_min` plus the factor times the output width. |
| `PunkConsoleCore.FractionInUnit` | cedargrove_punk_console.py:80-83 | For a proper input range and `x` inside it, the scale factor `(x - in_min) / (in_max - in_min)` lies in [0, 1]. |
| `PunkConsoleCore.ScaleOfFraction` | cedargrove_punk_console.py:80-89 | For a proper input range, the unclamped value of lines 88-89 is exactly `out_min + (x - in_min) * (out_max - out_min) / (in_max - in_min)`, for every `x`. |
| `PunkConsoleCore.MapRangeClampedLine` | cedargrove_punk_console.py:80-92 | For a proper input range and every `x`, inside the range or not, the result is the straight line `out_min + (x - in_min) * (out_max - out_min) / (in_max - in_min)` clamped to the output range, for either output orientation. |
| `PunkConsoleCore.MapRangeLinear` | cedargrove_punk_console.py:80-92 | For a proper input range and `x` inside it, the result is exactly `out_min + (x - in_min) * (out_max - out_min) / (in_max - in_min)`. |
| `PunkConsoleCore.MapRangeEndpoints` | cedargrove_punk_console.py:80-92 | For a proper input range, `in_min` maps to `out_min` and `in_max` maps to `out_max`, whichever order the ranges are given in. |
| `PunkConsoleCore.MapRangeDegenerateMidpoint` | cedargrove_punk_console.py:84-89 | With `in_min == in_max == x`, the result is the output midpoint `(out_min + out_max) / 2`. |
| `PunkConsoleCore.MapRangeDegenerateDelta` | cedargrove_punk_console.py:84-92 | With `in_min == in_max != x`, the result is `out_min + (x - in_min) * (out_max - out_min)` clamped to the output range, the same as for an input range one unit wide: the raw delta is the scale factor. For an increasing output range, a delta of at least one saturates at `out_max`, and any negative delta saturates at `out_min`. |
| `PunkConsoleCore.MapRangeMonotone` | cedargrove_punk_console.py:80-92 | With increasing input and output ranges, `x <= y` implies `map_range(x) <= map_range(y)`. |
| `PunkConsoleCore.MapRangeReverseBoth` | cedargrove_punk_console.py:88-92 | For a proper input range, swapping both input endpoints and both output endpoints leaves the result unchanged. |
| `PunkConsoleCore.MapRangeRoundTrip` | cedargrove_punk_console.py:80-92 | Mapping a point of a proper input range onto a proper output range and back again returns the point. |
| `PunkConsoleCore.ToneLength` | cedargrove_punk_console.py:48-49 | When `length * frequency <= 350000`, the length is unchanged. Otherwise the frequency is non-zero, and the new length is a whole number `r` with `r <= 350000 / frequency < r + 1`. |
| `PunkConsoleCore.ToneLengthFits` | cedargrove_punk_console.py:48-49 | For a positive frequency and an over-long buffer, the new length times the frequency is at most 350000, and one more sample would exceed it. |
| `PunkConsoleCore.ToneLengthIdempotent` | cedargrove_punk_console.py:48-49 | For a positive frequency, clamping an already clamped length changes nothing. |
| `PunkConsoleCore.ClampFrequency` | cedargrove_punk_console.py:97 | The stored frequency lies in [20, 20000]. An input already in range is stored unchanged. Inputs below or above the range become 20 or 20000. |
| `PunkConsoleCore.ClampPulseWidth` | cedargrove_punk_console.py:98 | The stored pulse width lies in [0.00005, 0.050]. An input already in range is stored unchanged. Inputs below or above the range become 0.00005 or 0.050. |
| `PunkConsoleCore.ClampIdempotent` | cedargrove_punk_console.py:97-98 | Clamping an already clamped frequency or pulse width changes nothing. |
| `PunkConsoleCore.Wavelength` | cedargrove_punk_console.py:100 | The wavelength times the frequency is 1, and the wavelength is positive for a positive frequency. |
| `PunkConsoleCore.WavelengthBounds` | cedargrove_punk_console.py:100-105 | The wavelength of a clamped frequency lies in [1/20000, 1/20] s, that is 50 µs to 50 ms. |
| `PunkConsoleCore.Reciprocal` | cedargrove_punk_console.py:100 | `1 / x` fails exactly when `x` is zero, and otherwise yields `r` with `r * x == 1`. |
| `PunkConsoleCore.InitAsWritten` | cedargrove_punk_console.py:95-100 | The constructor as written, on the instance's numeric attributes. It can fail only on line 100, with `AttributeError` on `_freq_input` or a division by zero. If it succeeded it would hold exactly `_freq_in`, `_pulse_width_in` and `_lambda_freq_in`, with the two clamped inputs. |
| `PunkConsoleCore.InitAsWrittenRaises` | cedargrove_punk_console.py:95-100 | As written, construction raises `AttributeError` on `_freq_input` for every input. |
| `PunkConsoleCore.PunkConsole.constructor` | cedargrove_punk_console.py:95-100 | The pin is stored. The frequency and pulse width are the clamped inputs, with in-range inputs kept unchanged. The wavelength is `1 / _freq_in`, and all three lie in their ranges. |

## Findings

| source | as written | input that shows it | evidently intended | confidence | as-written member | corrected member |
|---|---|---|---|---|---|---|
| cedargrove_punk_console.py:100 | `self._lambda_freq_in = 1 / self._freq_input` reads an attribute that no line assigns (line 97 assigns `_freq_in`) | `Punk_Console(pin, 440, 0.001)`, or any other arguments, raises `AttributeError` | `1 / self._freq_in`, a wavelength in [50 µs, 50 ms] | high; not executed | `PunkConsoleCore.InitAsWrittenRaises` | `PunkConsoleCore.PunkConsole.constructor` |

The as-written constructor is `InitAsWritten`. It models the instance
dictionary step by step and reads `_freq_input` from it. The class
`PunkConsole` carries the corrected line. Its constructor's postconditions and
`Valid()` state the wavelength bounds, which are proved by `WavelengthBounds`.

## Left out

- `tone`'s PWM and audio output (`cedargrove_punk_console.py:50-71`): these are
  hardware I/O (`pwmio.PWMOut`, `AudioOut`, `RawSample`) and `time.sleep`. The
  square-wave fill loop at line 63 passes a float (`sample_length / 2`) to
  `range`, which raises in Python 3, so that loop has no defined result to model.
- The module imports and the board-capability probing
  (`cedargrove_punk_console.py:13-32`): these are foreign libraries.
- The PWM step-adjustment algorithm and the sample-buffer fallback described in
  the class docstring (`cedargrove_punk_console.py:102-141`): these are prose
  only, with no code behind them.
- The pin passed to the constructor is an opaque type parameter. It is stored,
  never inspected, and it is not part of the attribute dictionary of
  `InitAsWritten`.
- The example programs (`simple_example.py`, `stereo_example.py`,
  `midi_in_example.py`): they do potentiometer reads, MIDI and NeoPixel I/O in
  endless loops. They use a `PunkConsole` class with `frequency`,
  `pulse_width_ms` and `mute` attributes that `cedargrove_punk_console.py` does
  not define, and they import `map_range` from `simpleio`.
- Floating-point rounding: all values are exact reals.
- The sample-buffer length in `tone` is a `real` rather than an `int`. The code
  multiplies `length` by a float frequency, and `//` on floats yields a
  float-valued whole number.
