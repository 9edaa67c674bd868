# Signal generator — a Dafny model

The repository is a small teaching tool. It has a window (`SignalApp` in
`signal_gui.py`) that draws four discrete signals: the unit step, the unit
impulse, the rectangular pulse and a discrete sinusoid. It also draws a
continuous sine or cosine whose amplitude A and period T the user types in.
A second script (`signals.py`) computes a cosine and a unit step once and
plots them side by side.

The model keeps the part with meaning: how each signal's index or time axis
and its samples are built, and the control flow of the continuous command.

- `Numeric` (numeric.dfy) models the three array primitives the code uses:
  `arange` (`Arange`), element-wise `where` (`Where`) and `linspace` with the
  endpoint included (`Linspace`). They work over unbounded integers and exact
  reals. It also holds counting helpers and `Trig`, a record of the abstract
  constant pi and the sine and cosine functions.
- `SignalGui` (signal_gui.dfy) has the four discrete signals, the time grid,
  the continuous figure and the continuous command on raw entry text. The
  class `SignalApp` holds the two entries, the wave-type choice and the figure
  currently on the axes. Each plot method replaces that figure. When an entry
  does not parse, `PlotContinuous` leaves the figure as it was.
- `Signals` (signals.dfy) has the script's top-level values `t`,
  `y_continuous`, `n` and `y_discrete`, with lemmas tying them to the window's
  signals.
- `Wrappers` (wrappers.dfy) has `Option` and `Result`.

Modelling choices:

- Python's `float()` on entry text is a library call. It appears as a
  parameter `parse: string -> Option<real>`, where `None` stands for the
  `ValueError` caught at signal_gui.py:135.
- `np.pi`, `np.sin` and `np.cos` are the fields of a `Trig` value and are
  otherwise uninterpreted. A lemma that needs a fact about them says so in a
  requires: `SinOfZero`, `SinPeriodic`, `SinOdd` or `CosEven`.
- A drawn figure is a value (`Figure`): a stem plot over integer indices, or a
  line over times, with its title and axis labels. A stem plot keeps the
  integer arrays of the pulses as integers (`Ints`) and the sinusoid's samples
  as reals (`Reals`). A title with parameters is kept as its name together
  with A and T (`WithParameters`). It is not rendered as text.
- The code shows one generic error message for both entries
  (signal_gui.py:136), so the model has one error value, `NotANumber`.
- `linspace(-2, 2, 1000)` has 999 intervals, so t = 0 is not a grid point
  (`TimeGridSymmetric`), and neither is t = 1/4, the first peak of a sine of
  period 1 (`TimeGridMissesQuarter`).

## Model

| member | source | states |
|---|---|---|
| `Numeric.Arange` | signal_gui.py:98 | `arange(lo, hi)` has `hi - lo` entries (none when `hi <= lo`), and entry i is `lo + i` |
| `Numeric.ArangeContiguous` | signal_gui.py:98 | consecutive entries of an arange differ by one, so it is strictly increasing |
| `Numeric.Where` | signal_gui.py:99 | `where(p(s), x, y)` has the length of s and holds x exactly where p holds of the entry of s, y elsewhere |
| `Numeric.Linspace` | signals.py:5 | `linspace(start, stop, num)` has num points, starts at start, ends exactly at stop when num >= 2, and point i is `start + i * step` |
| `Numeric.LinspaceEvenlySpaced` | signals.py:5 | neighbouring linspace points are one step `(stop - start) / (num - 1)` apart |
| `Numeric.LinspaceIncreasing` | signals.py:5 | for start < stop the linspace points increase strictly |
| `Numeric.BlockOnes` | signal_gui.py:99 | a 0/1 sequence that is one exactly on positions lo..hi-1 holds hi - lo ones |
| `Numeric.BlockZeros` | signal_gui.py:99 | such a sequence holds \|s\| - (hi - lo) zeros |
| `Numeric.BlockSum` | signal_gui.py:104 | such a sequence sums to hi - lo |
| `Numeric.CountBinary` | signal_gui.py:99 | in a 0/1 sequence the zeros and the ones together are all the entries |
| `SignalGui.UnitStep` | signal_gui.py:99 | the step has the length of n; a sample is 1 exactly when its index is >= 0 and 0 exactly when it is < 0 |
| `SignalGui.UnitImpulse` | signal_gui.py:104 | the impulse has the length of n; a sample is 1 exactly when its index is 0, and 0 otherwise |
| `SignalGui.RectPulse` | signal_gui.py:109 | the pulse has the length of n; a sample is 1 exactly when -2 <= index <= 2, and 0 otherwise |
| `SignalGui.PulseRange` | signal_gui.py:98-108 | the index range of step, impulse and rect has 11 entries, from -5 to 5 |
| `SignalGui.PulseRangeShape` | signal_gui.py:98-108 | that range is -5..5: entry i is i - 5, each one more than the last |
| `SignalGui.SineRange` | signal_gui.py:113 | the sinusoid's index range has 10 entries, from 0 to 9 |
| `SignalGui.SineRangeShape` | signal_gui.py:113 | that range is 0..9: entry i is i, each one more than the last |
| `SignalGui.DiscreteSine` | signal_gui.py:114 | one sample per index; given sin(0) = 0 the sample at index 0 is 0; given a 2 pi-periodic sine, samples at indices five apart are equal |
| `SignalGui.UnitStepCounts` | signal_gui.py:99 | over any range lo..hi-1 containing 0, the step is zero on the first -lo samples and one on the remaining hi |
| `SignalGui.UnitStepShape` | signal_gui.py:98-99 | over -5..5 every step sample is 0 or 1, with six ones and five zeros |
| `SignalGui.UnitImpulseCounts` | signal_gui.py:104 | over any range containing 0, the impulse is one at n = 0 only, has a single one and sums to 1 |
| `SignalGui.UnitImpulseShape` | signal_gui.py:103-104 | over -5..5 every impulse sample is 0 or 1, there is one 1, and the samples sum to 1 |
| `SignalGui.RectPulseCounts` | signal_gui.py:109 | over any range containing -2..2, the pulse is one exactly on those five indices |
| `SignalGui.RectPulseShape` | signal_gui.py:108-109 | over -5..5 every pulse sample is 0 or 1, with five ones and six zeros |
| `SignalGui.ImpulseIsStepDifference` | signal_gui.py:98-104 | for n = -4..5, impulse[n] = step[n] - step[n - 1] |
| `SignalGui.DiscreteSineStartsAtZero` | signal_gui.py:113-114 | the sinusoid has 10 samples and, given sin(0) = 0, its first sample is 0 |
| `SignalGui.DiscreteSinePeriodFive` | signal_gui.py:113-114 | given that sine has period 2 pi, samples 5..9 repeat samples 0..4 |
| `SignalGui.TimeGrid` | signal_gui.py:140 | the grid has 1000 points, the first -2 and the last exactly 2 |
| `SignalGui.TimeGridShape` | signal_gui.py:140 | the grid points are t[i] = -2 + 4 i / 999 and strictly increase |
| `SignalGui.TimeGridSymmetric` | signal_gui.py:140 | the grid is symmetric about 0 (t[999 - i] = -t[i]) and does not contain 0 |
| `SignalGui.TimeGridMissesQuarter` | signal_gui.py:140 | no grid point equals 1/4 |
| `SignalGui.ContinuousFigure` | signal_gui.py:140-149 | the figure is a line over the grid with one sample per point, labelled "Time (s)" and "Amplitude"; its title is "Sinusoidal signal" with A and T when the wave is "sine", and "Cosine signal" with A and T for any other value |
| `SignalGui.ContinuousWaveChoice` | signal_gui.py:144-148 | "sine" gives the samples A sin(2 pi t / T); any other value gives A cos(2 pi t / T) |
| `SignalGui.ContinuousSineOdd` | signal_gui.py:144-146 | given an odd sine, the sine samples are odd about the middle of the grid |
| `SignalGui.ContinuousCosineEven` | signal_gui.py:147-149 | given an even cosine, the cosine samples are even about the middle of the grid |
| `SignalGui.ContinuousCommand` | signal_gui.py:132-149 | the command fails exactly when the amplitude or the period text does not parse; otherwise it yields the continuous figure of the parsed A and T |
| `SignalGui.SignalApp.constructor` | signal_gui.py:52-67 | a new window has "sine" selected, both entries "1.0", and empty axes |
| `SignalGui.SignalApp.PlotDiscrete` | signal_gui.py:117-125 | the axes then show a stem plot of n and y with the given title and the labels "Sample Index (n)" and "Amplitude"; nothing else changes |
| `SignalGui.SignalApp.PlotStep` | signal_gui.py:97-100 | the axes then show the unit step over -5..5 titled "Unit Step Signal" |
| `SignalGui.SignalApp.PlotImpulse` | signal_gui.py:102-105 | the axes then show the unit impulse over -5..5 titled "Unit Impulse Signal" |
| `SignalGui.SignalApp.PlotRect` | signal_gui.py:107-110 | the axes then show the rectangular pulse over -5..5 titled "Rectangular Signal" |
| `SignalGui.SignalApp.PlotSin` | signal_gui.py:112-115 | the axes then show sin(2 pi n / 5) over 0..9 titled "Discrete Sinusoidal Signal" |
| `SignalGui.SignalApp.PlotContinuous` | signal_gui.py:130-158 | runs the continuous command on the window's entries and wave type: on a failure (either entry fails to parse) the figure is left unchanged, on success it becomes the command's figure |
| `Signals.Time` | signals.py:5 | the script's t has 1000 points, the first -2 and the last 2 |
| `Signals.TimeShape` | signals.py:5 | the script's t is the window's grid: increasing points t[i] = -2 + 4 i / 999 |
| `Signals.YContinuous` | signals.py:6 | one sample per time; given an even cosine, the samples are even about the middle of the grid |
| `Signals.N` | signals.py:9 | the script's n has 11 entries, from -5 to 5 |
| `Signals.NShape` | signals.py:9 | the script's n is -5..5: 11 consecutive increasing integers |
| `Signals.YDiscrete` | signals.py:10 | y_discrete has one entry per index of n |
| `Signals.YDiscreteShape` | signals.py:10 | each entry of y_discrete is 1 when n[i] >= 0 and 0 when n[i] < 0, so every entry is 0 or 1 |
| `Signals.StepMatchesWindow` | signals.py:9-10 | the script's n and y_discrete equal the window's unit step, sample for sample |
| `Signals.CosineMatchesWindow` | signals.py:5-6 | the script's cos(2 pi t) equals the window's cosine with A = 1 and T = 1 |

## Left out

- Window construction, the radio buttons and entries, `update_ui` and
  `on_close` (signal_gui.py:8-88): these are widget plumbing. Only the
  default values of the wave type and the two entries are kept, in the
  `SignalApp` constructor. The user can change the `SignalApp` fields directly.
- The error message box (signal_gui.py:136) is a GUI side effect. Only the
  early return is modelled.
- Rendering: `clear_plot`, the `stem` and `plot` styling, `set_title`,
  `set_xlabel`, `grid`, `canvas.draw` and all of signals.py:13-34. These are
  modelled only as the figure value left on the axes. The cleared state
  between `clear_plot` and the draw is never visible, so it is not modelled.
- Floating-point values of `np.sin`, `np.cos` and the arithmetic around them
  (signal_gui.py:114, 145, 148; signals.py:6). Samples are stated over exact
  reals with the elementary functions left abstract, and float rounding is
  not modelled. The grid points are exact reals too, not the doubles numpy
  computes.
- `float()` parsing itself (signal_gui.py:133-134) is an abstract parameter.
  Text that parses to an infinity or NaN has no counterpart in the model.
- `SignalGui.ContinuousCommand`: a zero period makes `1 / T` raise
  `ZeroDivisionError` at signal_gui.py:141. That exception escapes the
  callback, because the handler catches only `ValueError`. The model requires
  a non-zero period whenever the amplitude parses, and does not model the
  uncaught exception.
- `SignalGui.SignalApp.PlotContinuous`: the same precondition on the period.
- Title formatting (the f-strings at signal_gui.py:146 and 149) depends on how
  Python prints floats. A title is kept as its name plus A and T.
