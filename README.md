# Perturbation-theory power spectra (`pyccl.nl_pt.power`), modelled in Dafny

This project models the core of `pyccl/nl_pt/power.py`. That file computes
perturbation-theory power spectra for pairs of cosmological tracers: galaxy
number counts (NC), intrinsic alignments (IA) and matter (M). It has three parts:

- **`PTCalculator`** (`calculator.dfy`, module `Calculator`). This class owns
  a logarithmic wavenumber grid, a FAST-PT engine built over that grid, and four
  correlator caches (`dd_bias`, `ia_ta`, `ia_tt`, `ia_mix`). The caches start as
  `None`. `update_pk` overwrites them in place after checking the spectrum's
  shape. The model is a class: its configuration fields are `const`, its caches
  are `var` fields, and its methods carry `modifies` clauses.
- **The combination formulas** (`formulas.dfy`, module `Formulas`): `get_pgg`,
  `get_pgm`, `get_pim`, `get_pgi` and `get_pii`. Each is a pure function from the
  matter spectrum `Pd1d1`, the fourth power of the growth factor `g4`, the bias
  vectors and the correlator bundles to an `(N_k, N_z)` grid of exact `real`s.
  numpy's outer-product broadcast is written out entry by entry inside each
  formula; `grids.dfy` (module `Grids`) holds the grid shapes and the
  transpose.
- **`get_pt_pk2d`** (`orchestrator.dfy`, module `Orchestrator`). This method
  fills in the defaults and raises `TypeError` or `ValueError` as the source
  does. It computes `z = 1/a - 1` and `g4 = (D^2)^2`, refreshes the calculator
  with the linear spectrum at `a = 1` and builds `Pd1d1`. It then dispatches on
  the ordered pair of tracer types. `PTTracer` is a closed datatype of the three
  tracer types, and `Combine` is an exhaustive `match` over its nine pairs.
  The source raises `NotImplementedError` for a tracer whose `type` string is
  none of the three; such tracers are not values of the model's datatype, so
  that error does not appear (see "Left out"). The
  transposed `(N_a, N_k)` grid is handed over as the output.

The opaque collaborators are **parameters**:

- FAST-PT is a datatype of four function fields (`Calculator.FastPT`). Its
  only guarantee, `FastPT.Sound`, is on lengths: `one_loop_dd_bias` returns at
  least 8 elements, of which elements 0 to 6 are vectors of length `|ks|` and
  element 7 is the scalar `sigma4` (held as a one-element vector and read by
  `Formulas.Sigma4`); `IA_ta`, `IA_tt` and `IA_mix` return 4, 2 and 4 vectors
  of length `|ks|`.
- The FAST-PT constructor is a function `newFastPT` from its arguments to such
  an engine.
- The cosmology (`Orchestrator.Cosmology`) is a datatype of the linear and
  non-linear matter power functions of `(k, a)`, the growth factor as a
  function of `a`, and the default scale-factor sampling.
- A tracer's bias functions of redshift are function fields of `PTTracer`.

Python arguments that may be omitted or may have the wrong type are modelled
by `Arg<T> = Missing | Given(value) | WrongType`.

The wavenumber grid is held by the decimal logarithms of its points
(`log10ks`). These are `np.logspace`'s evenly spaced exponents, computed in
exact arithmetic. The cosmology's power functions take a wavenumber through its
decimal logarithm. The output's k-axis is that same exponent grid: the source
passes `log(ks)`, which is `ln 10` times it.

Quirks of the source are kept as written:

- A number-counts tracer's tidal bias `bs` is read from `tracer.b2`
  (`Orchestrator.CombineIgnoresTidalBiasFunction`).
- The B-mode's `a0b0b` term is weighted by `cd1*cd2` with no `g4`, while the
  E-mode's `a0e0e` term is weighted by `cd1*cd2*g4`.
- The B-mode is asymmetric in its two tracers through two coefficients: the
  `ab2b2` coefficient `cd1*c22` and the `d0bb2` coefficient `cd1*c22 + cd1*c21`
  (`Formulas.PiiBModeNotSymmetric` gives an input for each).
- The E-mode `pii` multiplies `Pd1d1` by `g4`, while `pim` does not, so the
  two differ by `(g4 - 1) c1 Pd1d1` against a unit alignment tracer
  (`Formulas.PiiUnitTracerVersusPim`).
- `extrap_order_lok` and `extrap_order_hik` are accepted but not passed on.

## Model

| member | source | states |
|---|---|---|
| Calculator.TruncateToInt | pyccl/nl_pt/power.py:85 | Python's `int()` truncates toward zero: the result is within one of `x`, on the side of zero |
| Calculator.NkTotal | pyccl/nl_pt/power.py:85 | the grid size is `(log10k_max - log10k_min) * nk_per_decade` truncated toward zero: within one of it, on the side of zero |
| Calculator.LogGrid | pyccl/nl_pt/power.py:86 | the `np.logspace` exponents: exactly `n` points, the first is `log10k_min`, the last is `log10k_max` (when `n >= 2`), consecutive points `(log10k_max - log10k_min) / (n - 1)` apart, strictly increasing when `log10k_min < log10k_max` |
| Calculator.DefaultGridSize | pyccl/nl_pt/power.py:18-19 | the default calculator's grid has `int(6 * 20) = 120` points |
| Calculator.PTCalculator.constructor | pyccl/nl_pt/power.py:70-96 | the flags and windows are stored; `to_do` is `['one_loop_dd']`, then `'dd_bias'` iff `with_NC`, then `'IA'` iff `with_IA`; the grid has `int((log10k_max - log10k_min) * nk_per_decade)` points; `n_pad = pad_factor * len(ks)`; the engine is built from exactly these arguments; all four caches are `None` |
| Calculator.PTCalculator.UpdatePk | pyccl/nl_pt/power.py:98-104 | a spectrum whose length differs from the grid's gives `ValueError` and leaves all four caches as they were; otherwise `dd_bias` is recomputed iff `with_NC`, the three IA caches iff `with_IA`, and the disabled caches keep their old values; the refreshed caches are sampled on the grid |
| Calculator.PTCalculator.GetDdBias | pyccl/nl_pt/power.py:106-112 | `dd_bias` becomes the engine's `one_loop_dd_bias` of the spectrum with the calculator's windows; nothing else changes |
| Calculator.PTCalculator.GetIaBias | pyccl/nl_pt/power.py:114-125 | `ia_ta`, `ia_tt`, `ia_mix` become the engine's `IA_ta`, `IA_tt`, `IA_mix` of the spectrum with the calculator's windows; nothing else changes |
| Formulas.Pgg | pyccl/nl_pt/power.py:127-178 | the number-counts spectrum has shape `(N_k, N_z)`; it needs the vectors `dd_bias[2..6]`, and the scalar `sigma4 = dd_bias[7]` only when `sub_lowk` |
| Formulas.PggLinearBias | pyccl/nl_pt/power.py:172-177 | with `b21 = bs1 = b22 = bs2 = 0`, every entry is `b11[j] * b12[j] * Pd1d1[i][j]`, whatever `sub_lowk` is |
| Formulas.PggFlatScenario | pyccl/nl_pt/power.py:172-177 | with `b1 = 2`, no higher bias, `Pd1d1 = 1` and `g4 = 1`, every entry of `pgg` is `4` |
| Formulas.PggSymmetric | pyccl/nl_pt/power.py:172-177 | swapping the triples `(b11, b21, bs1)` and `(b12, b22, bs2)` leaves `pgg` unchanged |
| Formulas.PggReadsOnlyTwoToSix | pyccl/nl_pt/power.py:160-169 | with `sub_lowk = False`, two bundles that agree on elements 2 to 6 give the same `pgg`, so `dd_bias[7]` is not read |
| Formulas.PggLowkSubtraction | pyccl/nl_pt/power.py:166-177 | subtracting the low-k term changes entry `[i][j]` by exactly `-(b21 b22 / 2 + (b21 bs2 + b22 bs1) / 3 + 2 bs1 bs2 / 9) g4[j] sigma4`, the same at every wavenumber `i` |
| Formulas.Pgm | pyccl/nl_pt/power.py:180-213 | the number-counts x matter spectrum has shape `(N_k, N_z)` and needs only `dd_bias[2]` and `dd_bias[4]` |
| Formulas.PgmLinearBias | pyccl/nl_pt/power.py:210-212 | with `b2 = bs = 0`, every entry is `b1[j] * Pd1d1[i][j]` |
| Formulas.PgmReadsOnlyTwoAndFour | pyccl/nl_pt/power.py:206-212 | two bundles that agree on elements 2 and 4 give the same `pgm` |
| Formulas.PgmIsPggWithUnitTracer | pyccl/nl_pt/power.py:529-530 | matter acts as a number-counts tracer with `b1 = 1` and no higher bias: `pgm` equals `pgg` against such a tracer, with or without low-k subtraction |
| Formulas.Pim | pyccl/nl_pt/power.py:215-249 | the IA x matter spectrum has shape `(N_k, N_z)`; `ia_ta` and `ia_mix` unpack into exactly four vectors |
| Formulas.PimLinearAlignment | pyccl/nl_pt/power.py:245-247 | with `c2 = cd = 0`, every entry is `c1[j] * Pd1d1[i][j]` |
| Formulas.Pgi | pyccl/nl_pt/power.py:251-294 | the NC x IA spectrum has shape `(N_k, N_z)` |
| Formulas.PgiIsLinearlyBiasedPim | pyccl/nl_pt/power.py:286-292 | every entry of `pgi` is `b1[j]` times the same entry of `pim(Pd1d1, g4, c1, c2, cd)`; with `b1 = 1` the two grids are equal |
| Formulas.PgiIgnoresHigherBias | pyccl/nl_pt/power.py:290-292 | `pgi` does not depend on `b2` or `bs` |
| Formulas.Pii | pyccl/nl_pt/power.py:296-341 | the IA x IA spectrum (E-mode, or B-mode with `return_bb`) has shape `(N_k, N_z)`; `ia_tt` unpacks into exactly two vectors |
| Formulas.PiiEModeSymmetric | pyccl/nl_pt/power.py:335-340 | the E-mode is unchanged when `(c11, c21, cd1)` and `(c12, c22, cd2)` are swapped |
| Formulas.PiiBModeIgnoresLinearTerms | pyccl/nl_pt/power.py:330-333 | the B-mode does not depend on `Pd1d1`, `c11` or `c12` |
| Formulas.PiiBModeNotSymmetric | pyccl/nl_pt/power.py:330-333 | because the `d0bb2` coefficient is `cd1 c22 + cd1 c21`, and again because the `ab2b2` coefficient is `cd1 c22`, there are inputs for which swapping the tracers changes the B-mode from `1` to `0` |
| Formulas.PiiUnitTracerVersusPim | pyccl/nl_pt/power.py:335-340 | against an IA tracer with `c1 = 1` and no higher bias, the E-mode `pii` is `pim + (g4 - 1) c1 Pd1d1` |
| Grids.Transpose | pyccl/nl_pt/power.py:542 | `.T` maps a `(rows, cols)` grid to a `(cols, rows)` grid and swaps the indices of every entry |
| Grids.TransposeInvolution | pyccl/nl_pt/power.py:447-448 | transposing twice gives back the grid |
| Orchestrator.ScaleFactorSamples | pyccl/nl_pt/power.py:401-405 | `a_arr` is the given one, or the cosmology's spline sampling when it is `None` |
| Orchestrator.SecondTracer | pyccl/nl_pt/power.py:407-408 | `tracer2` is the given one, or `tracer1` when it is `None` |
| Orchestrator.Redshifts | pyccl/nl_pt/power.py:429 | one redshift per scale factor, `z_j = 1/a_j - 1` |
| Orchestrator.RedshiftsInvert | pyccl/nl_pt/power.py:429 | from `z = 1/a - 1`, every scale factor is recovered as `1 / (1 + z)` |
| Orchestrator.GrowthFourth | pyccl/nl_pt/power.py:435-437 | one entry per scale factor, the square of the squared growth factor |
| Orchestrator.PowerOnGrid | pyccl/nl_pt/power.py:431 | the spectrum at one scale factor sampled on the grid: one entry per grid point, entry `i` is the power at `(k_i, a)` |
| Orchestrator.GrowthFourthIsFourthPower | pyccl/nl_pt/power.py:435-437 | `g4 = (D^2)^2` is `D^4` at each scale factor and is never negative |
| Orchestrator.MatterPowerGrid | pyccl/nl_pt/power.py:446-451 | `Pd1d1` has shape `(N_k, N_a)`, and entry `[i][j]` is the non-linear spectrum (or the linear one when `use_nonlin = False`) at `(k_i, a_j)` |
| Orchestrator.Combine | pyccl/nl_pt/power.py:453-523 | each of the nine ordered pairs of tracer types selects its formula; the result has shape `(N_k, N_z)` |
| Orchestrator.CombineMatterMatter | pyccl/nl_pt/power.py:516-517 | M x M returns `Pd1d1` unchanged |
| Orchestrator.CombineIaNcIsSwappedNcIa | pyccl/nl_pt/power.py:491-496 | IA x NC calls `get_pgi` with the tracers' roles swapped, so it equals NC x IA of the swapped pair |
| Orchestrator.CombineSymmetric | pyccl/nl_pt/power.py:453-523 | every pairing except the IA B-mode gives the same grid when the two tracers are swapped |
| Orchestrator.CombineIgnoresTidalBiasFunction | pyccl/nl_pt/power.py:453-507 | a number-counts tracer's own `bs` function is never read, whether it is the first or the second tracer, because `bs` is taken from `b2` |
| Orchestrator.PtGrid | pyccl/nl_pt/power.py:540-543 | the grid handed to `Pk2D` is the combined grid transposed, of shape `(N_a, N_k)` |
| Orchestrator.MatterMatterReproducesPower | pyccl/nl_pt/power.py:446-451 | for two matter tracers, row `j` of the output is the matter spectrum at `a_j` on every grid point; the whole output is the stacked per-`a` spectra, the transpose of `Pd1d1` undone by the final transpose at line 542 |
| Orchestrator.ComputePk2d | pyccl/nl_pt/power.py:428-543 | after the argument checks, the caches are refreshed with the linear spectrum at `a = 1` where the flags allow and are left alone elsewhere; the output is `PtGrid` over the grid's exponents with `is_logp = False`; exactly one warning is issued iff the pair is NC x IA or IA x NC |
| Orchestrator.DefaultCalculator | pyccl/nl_pt/power.py:414-415 | `PTCalculator()` with every default (power.py:18-19 and 70-96): a fresh calculator with both flags, the 120-point grid from `10^-4` to `10^2`, `to_do = ['one_loop_dd', 'dd_bias', 'IA']`, `n_pad = 120`, an engine built with `low_extrap = -5` and `high_extrap = 3`, and empty caches |
| Orchestrator.GetPtPk2d | pyccl/nl_pt/power.py:401-426 | `tracer2` defaults to `tracer1` and `a_arr` to the cosmology's sampling; a tracer or `ptc` of the wrong type gives `TypeError`; an NC tracer without `with_NC`, or an IA tracer without `with_IA`, gives `ValueError`; each error is raised before the calculator is touched; a missing `ptc` becomes a fresh `DefaultCalculator` (both flags set, the 120-point grid from `10^-4` to `10^2`, `to_do = ['one_loop_dd', 'dd_bias', 'IA']`, `n_pad = 120`, and an engine built with `low_extrap = -5` and `high_extrap = 3`); otherwise the result is as `ComputePk2d` states |

## Left out

- Everything inside FAST-PT (`fpt.FASTPT`, `one_loop_dd_bias`, `IA_ta`, `IA_tt`, `IA_mix`) is FFTLog numerics in a foreign library. Only the lengths of what it returns are modelled (`FastPT.Sound`).
- The cosmology calls (`linear_matter_power`, `nonlin_matter_power`, `growth_factor`, `lib.get_pk_spline_na`, `lib.get_pk_spline_a`) are C-library calls and appear as uninterpreted function fields. The status check `check(status)` after reading the spline sampling is left out, because the C library's status codes are not part of this model.
- `Pk2D` construction and interpolation are left out. The model produces only the values handed to it: the scale factors, the k-axis, the transposed grid and `is_logp = False`.
- Floating-point behaviour is left out. Arithmetic is exact on `real`, including the constants `0.25`, `0.5`, `4/3` and `8/9`. The wavenumbers themselves (`10` raised to the grid exponents) and `log(ks)` are not computed; the exponent grid stands for them.
- The `HAVE_FASTPT` import probe and its `assert` are an environment check with no model counterpart. `warnings.warn` is recorded as an entry of the `warnings` list that `GetPtPk2d` returns.
- `numpy` shape errors other than the one `update_pk` raises are not modelled. Two examples are bias vectors whose lengths differ from `g4`'s, and a correlator bundle of the wrong length. The formulas `requires` the shapes that `get_pt_pk2d` always supplies.
- Calculator.PTCalculator.constructor: a negative grid size (`np.logspace` raises for it) is excluded by a precondition rather than modelled as an error.
- Orchestrator.GetPtPk2d: its preconditions exclude an empty `a_arr`, which `Pk2D` cannot build a spline from. They also exclude `a = 0`, for which numpy's `1/a` is an infinity that `real` cannot represent.
- Orchestrator.GetPtPk2d: the model does not pass `extrap_order_lok` and `extrap_order_hik` on, and neither does the source.
- `PTTracer` is a closed datatype of the three tracer types. A tracer whose `type` string is none of `'NC'`, `'IA'` and `'M'` is not modelled. The source accepts it at the `isinstance` checks and raises `NotImplementedError` only in the dispatch, after `update_pk` has already refreshed the caches.
- tracers.py is not part of this model. A tracer's type tag and bias functions are the only part of it the core uses.
