# Resonator and input-table wake sources of BLonD-minimal-cpp, in Dafny

This project models the wake sources of the collective-effects code of
BLonD-minimal-cpp (`src/impedances/Intensity.cpp`). A wake source produces
either a wake function sampled over a time grid or an impedance sampled over
a frequency grid. Two sources are modelled:

- `Resonators` is the analytic source. It is built from parallel tables of
  shunt resistance R, resonant frequency f_r and quality factor Q, one entry
  per resonant mode, and it precomputes ω_r = 2π·f_r. `wake_calc` fills the
  wake over a time grid with a sum over the modes of
  `(sign(t) + 1)·R·α·e^(−αt)·(cos ω̄t − (α/ω̄)·sin ω̄t)`, where α = ω_r/(2Q)
  and ω̄ = sqrt(ω_r² − α²). `imped_calc` fills the impedance over a
  frequency grid with a sum over the modes of `R / (1 + jQ(f/f_r − f_r/f))`.
  It skips entry 0, the zero-frequency sentinel.
- The `InputTable` constructor stores a loaded (time, wake) table. Otherwise
  it stores a (frequency, Re Z, Im Z) table, checks the two impedance parts
  against each other, and prepends a (0, 0 + 0j) sample when the first
  frequency is not 0.

Numbers are mathematical reals, not IEEE doubles. Complex numbers are pairs
of reals (`Complex`), and division is written out as a·conj(b)/|b|².
`exp`, `cos`, `sin`, `sqrt` and the constant π are fields of one value,
`Transcendental.Functions`. The model assumes only what
`Transcendental.Valid` states about them: exp(0) = 1, cos(0) = 1,
sin(0) = 0, sqrt is the non-negative square root, and 3.14159 < π < 3.14160.
Objects are immutable values. Each calculation returns the updated object.

Files:

- `realfacts.dfy` (`RealFacts`): small facts about products and quotients of reals.
- `complex.dfy` (`Complex`): complex numbers.
- `transcendental.dfy` (`Transcendental`): the elementary functions and what is assumed of them.
- `modes.dfy` (`Modes`): one resonant mode, its wake and impedance terms, and the sums over modes.
- `mode_sums.dfy` (`ModeSums`): the sums split over concatenation and do not depend on mode order.
- `resonators.dfy` (`ResonatorsSource`): the `Resonators` object, its constructor, `wake_calc` and `imped_calc`.
- `input_table.dfy` (`InputTableSource`): the `InputTable` object and its constructor.

What the code does not check, and how the model treats it:

- The code never checks that the three resonator tables have one length. The
  model requires at least what the code reads. At construction there must be
  at least as many resonant frequencies as shunt resistances. For both
  calculations, `ResonatorsSource.Shaped` also requires at least as many
  Q and f_r entries as modes. That is more than the code needs in two cases:
  `wake_calc` never reads f_r, and `imped_calc` reads neither Q nor f_r on a
  frequency grid of one entry or none.
- In the `InputTable` constructor only the real and imaginary impedance parts
  are compared. The frequency table's length is never compared with them,
  and the model does not compare it either.

## Model

| member | source | states |
|---|---|---|
| Complex.Div | src/impedances/Intensity.cpp:93-95 | The complex quotient r = a/b is defined for every b ≠ 0, and r·b = a. |
| Modes.OmegaBar | src/impedances/Intensity.cpp:65 | For a mode with Q ≠ 0 and ω_r² − α² > 0, ω̄ is positive and ω̄² = ω_r² − α², so the division by ω̄ is defined. |
| Modes.UnderdampedExactly | src/impedances/Intensity.cpp:36-51 | For ω_r = 2π·f_r, the wake terms are finite reals (Q ≠ 0 and ω_r² − α² > 0) exactly when f_r ≠ 0 and Q² > 1/4. |
| Modes.ModeWake | src/impedances/Intensity.cpp:69-76 | One mode's wake term is 0 at every t < 0 and equals R·α at t = 0. |
| Modes.ModeWakeIsDocumented | src/impedances/Intensity.cpp:27-32 | The loop's sample term equals the documented wake for every t: W(t>0) = 2αR·e^(−αt)(cos ω̄t − (α/ω̄) sin ω̄t), W(0) = αR, and 0 before the origin. |
| Modes.WakeSum | src/impedances/Intensity.cpp:63-77 | The wake summed over all modes is 0 before the origin and equals Σ R·α at the origin. |
| ModeSums.WakeSumAppend | src/impedances/Intensity.cpp:63-77 | The wake of two concatenated mode lists is the pointwise sum of their wakes, so each added mode adds its own term. |
| ModeSums.WakeSumRemove | src/impedances/Intensity.cpp:63-77 | Removing any one mode from the list removes exactly that mode's term from the wake. |
| ModeSums.WakeSumPermutation | src/impedances/Intensity.cpp:63-77 | Any reordering of the modes (the same multiset) gives the same wake. |
| Modes.ModeImpedance | src/impedances/Intensity.cpp:92-95 | One mode's impedance z satisfies z·(1 + jQ(f/f_r − f_r/f)) = R whenever f ≠ 0 and f_r ≠ 0. |
| Modes.ModeImpedanceParts | src/impedances/Intensity.cpp:25 | With x = Q(f/f_r − f_r/f), Re Z = R/(1 + x²) and Im Z = −R·x/(1 + x²). |
| Modes.ModeImpedanceBounds | src/impedances/Intensity.cpp:92-95 | For R ≥ 0 the real part lies in [0, R]. It equals R exactly when R = 0 or the detuning is 0. |
| Modes.ModeImpedanceAtResonance | src/impedances/Intensity.cpp:25 | At f = f_r a single mode's impedance is exactly R + 0j. |
| Modes.ModeImpedanceConjugate | src/impedances/Intensity.cpp:92-95 | The impedance at −f is the complex conjugate of the impedance at f. |
| Modes.ImpedanceSum | src/impedances/Intensity.cpp:90-97 | The impedance at f of a list of modes: (0,0) plus each mode's term, added in the order of the loop over the modes. Its properties are stated by the lemmas below. |
| Modes.ImpedanceSumPassive | src/impedances/Intensity.cpp:90-97 | With all R ≥ 0, the real part of the summed impedance lies between 0 and Σ R at every frequency. |
| ModeSums.ImpedanceSumAppend | src/impedances/Intensity.cpp:90-97 | The impedance of two concatenated mode lists is the sum of their impedances. |
| ModeSums.ImpedanceSumRemove | src/impedances/Intensity.cpp:90-97 | Removing any one mode from the list removes exactly that mode's term from the impedance. |
| ModeSums.ImpedanceSumPermutation | src/impedances/Intensity.cpp:90-97 | Any reordering of the modes gives the same impedance. |
| ResonatorsSource.Build | src/impedances/Intensity.cpp:43-51 | The constructor keeps the three tables and sets the mode count to the number of shunt resistances. It records one ω_r per mode with ω_r[i] = 2π·f_r[i], and nothing is computed yet. |
| ResonatorsSource.ConstructedModesUnderdamped | src/impedances/Intensity.cpp:49-51 | For ω_r recorded by the constructor, every mode's wake is defined exactly when every f_r ≠ 0 and every Q² > 1/4. |
| ResonatorsSource.AddModeWake | src/impedances/Intensity.cpp:69-76 | The inner wake loop adds the mode's term to every sample and changes nothing else. |
| ResonatorsSource.WakeCalc | src/impedances/Intensity.cpp:54-78 | The time grid is replaced, and the wake has the grid's length. Each sample is the sum over the modes at that time, independent of the previous wake. No other field changes. |
| ResonatorsSource.AddModeImpedance | src/impedances/Intensity.cpp:91-96 | The inner impedance loop adds the mode's term to every entry from index 1 on and leaves entry 0 as it was. |
| ResonatorsSource.ImpedCalc | src/impedances/Intensity.cpp:80-98 | The frequency grid is replaced, and the impedance has the grid's length. Entry 0 is (0,0) whatever the inputs. Entry j ≥ 1 is the sum over the modes at f_j. No other field changes. |
| InputTableSource.ZipImpedance | src/impedances/Intensity.cpp:113-116 | The complex samples pair the real and imaginary tables entry by entry, in order, and keep their length. |
| InputTableSource.NewInputTable | src/impedances/Intensity.cpp:100-125 | With an empty third table, time and wake are stored unchanged. Otherwise mismatched parts are an error, whatever the frequency table holds. On success the frequency table starts at 0 and ends with the input, and at most one (0, 0) sample is prepended, exactly when the first frequency is nonzero. The complex samples keep the original length. |
| InputTableSource.ImpedanceLoadedOmitsSentinel | src/impedances/Intensity.cpp:113-123 | The complex samples are built before the prepend, so sample i pairs the part tables' entries at i + 1 when a sentinel was added. |
| InputTableSource.ReloadKeepsTables | src/impedances/Intensity.cpp:118-123 | Loading the stored frequency tables again leaves them unchanged: the sentinel is added at most once. |

## Left out

- `InputTable::wake_calc` and `InputTable::imped_calc` (src/impedances/Intensity.cpp:127-150) are not modelled. They only call `mymath::lin_interp`, whose source is not part of this model.
- The convolution, FFT and aggregation layer (`InducedVoltageTime`, `TotalInducedVoltage` and the energy kick) is not part of this model. Its source is not among the modelled files.
- IEEE double behaviour is left out: rounding, infinities, and `exp` overflow for large negative t (a weight of 0 times infinity gives NaN). In the wake, Q² ≤ 1/4, Q = 0 or f_r = 0 give NaN; the model requires `Modes.Underdamped` instead. In the impedance, f_r = 0 or f = 0 is a division by zero, which is undefined over the reals, so the model requires both to be nonzero (`Modes.ImpedanceDefinedAt`). In IEEE arithmetic the detuning is then infinite and the term (R + 0j)/(1 + j·∞) comes out as 0; it is NaN when also Q = 0, when f = f_r = 0, or when the complex division is compiled without its special-value handling (as under fast-math options). The model does not describe these IEEE values.
- `exp`, `cos`, `sin`, `sqrt` and π are uninterpreted beyond `Transcendental.Valid`. Of `exp`, `cos` and `sin` only the values at 0 are used, by the wake at the origin. Of `sqrt`, the model uses that it is the non-negative square root: `Modes.OmegaBar`, and with it every wake member, relies on ω̄² = ω_r² − α² for a positive radicand.
- `ResonatorsSource.WakeCalc`: when the time grid is nonempty it requires every mode to be underdamped. On an empty grid `wake_calc` still computes α and ω̄ for every mode, possibly as NaN, but stores nothing derived from them, so the model drops the requirement there. It also requires, through `ResonatorsSource.Shaped`, at least as many f_r entries as modes, which `wake_calc` never reads. A mode is a record of all four values, so the model asks for all of them.
- `ResonatorsSource.ImpedCalc`: requires, through `ResonatorsSource.Shaped`, at least as many Q and f_r entries as modes, also for a grid of one entry or none, where the loop never reads them.
- `InputTableSource.NewInputTable` models the `assert` on the impedance part lengths as an error result. In a build with `NDEBUG` the check is absent, and that build is not modelled. When the parts match, the first frequency is read next, which is undefined for an empty frequency table. The precondition excludes only that case: mismatched parts are an error even with an empty frequency table.
- File reading, timing, process and option-parsing helpers (`include/blond/utilities.h`) and random beam generation (`include/blond/beams/Distributions.h`) are I/O or randomness and are not modelled. So is the GHz/MΩ scaling of the resonator table done by the tests.
- The mutable object fields (`fTimeArray`, `fWake`, `fFreqArray`, `fImpedance`) are fields of an immutable value. Each calculation returns the updated value instead of writing in place.
