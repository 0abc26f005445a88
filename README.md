# ST-U prior and NICER-style instrument response, modelled in Dafny

This project models the two model-specific plug-ins of an X-PSI pulse-profile
analysis (two single-temperature circular hot regions on a rotating neutron
star):

- **The custom joint prior** (`tutorials/v0.2/CustomPrior.py`). Its support
  indicator returns log-density 0.0 or -inf. It runs a fixed, short-circuiting
  chain of checks: the rectangular bounds, then an update of the shared
  spacetime, then the 16 km radius cap, the photon-sphere cut, the `mu >= 1`
  shape cut and the polar-radius cut, then the hot-region colatitude ordering
  and the no-overlap cut. The model also covers inverse sampling from the unit
  hypercube (distance override, phase wrapping), the post-processing transform
  that appends five derived parameters, and their composition.
- **The custom instrument** (`tutorials/v0.2/CustomInstrument.py`). It builds
  the response matrix from loaded ARF/RMF tables: a transposed slice of the
  RMF, each input column scaled by the ARF effective area. It also builds the
  energy-edge array, the kept channels 20..200 and their edges. It folds a
  signal through the matrix and caches the result.

Files:

- `shared.dfy` (module `Shared`): `Option`, the Python exceptions that can escape (`PyError`), `Outcome` (returns or raises) and `BoundPair`.
- `prior.dfy` (module `Prior`): the prior as a class. It also holds the shared spacetime as a class whose `Update` reassigns its derived quantities, a `ParamList` class for the Python list that `transform` extends in place, and the specification functions `Density`, `InverseSampled` and `Transformed`.
- `prior_properties.dfy` (module `PriorProperties`): lemmas about those functions.
- `instrument.dfy` (module `Instrument`): the instrument class, its construction steps over `array2<real>`/`array<real>`, the fold, and lemmas.

External library pieces are function-valued inputs with no internals:
- the spacetime physics behind `update` and `R`, `R_r_s`, `epsilon`, `zeta` (`Spacetime.derive`);
- `HotRegion._psi` (`CustomPrior.psi`);
- `gravradius`;
- `truncnorm.ppf(., -2, 7, loc=0.3, scale=0.1)` (`CustomPrior.distanceQuantile`);
- the base-class `inverse_sample` (`CustomPrior.baseInverse`).

The library constants are `_km = 1000.0` (metres) and `_2pi = 6.283185307179586`.
Python's `-inf` is `LogDensity.MinusInf`. An uncaught exception is `Outcome.Raises`.

Two behaviours of the code are worth stating outright:
- Line 76 of `CustomPrior.py` does not catch its errors. The call raises `ZeroDivisionError` when `3*epsilon*(-0.788 + 1.030*zeta)` is zero, and `ValueError` (math domain error) when the radicand `-1/(3*epsilon*(-0.788 + 1.030*zeta))` is negative. It never returns -inf for either case (`DensityRaisesIff`).
- The phase separation appended by `transform` can be exactly 1, for example with primary phase 0 and secondary phase 0.5 (`PhaseSeparationReachesOne`).

## Model

| member | source | states |
|---|---|---|
| `Prior.CheckBounds` | tutorials/v0.2/CustomPrior.py:57-60 | true exactly when every pair with both ends set contains its parameter, inclusive at both ends; pairs holding `None` are skipped |
| `Prior.CustomPrior.Evaluate` | tutorials/v0.2/CustomPrior.py:57-110 | the result is `Density` of the vector; the spacetime is updated with the first `num_params` entries exactly when the bounds pass, and is left untouched otherwise |
| `Prior.CustomPrior.constructor` | tutorials/v0.2/CustomPrior.py:34-47 | stores the bounds and the shared spacetime (with the library functions the prior calls) |
| `PriorProperties.UnsetBoundImposesNothing` | tutorials/v0.2/CustomPrior.py:57-58 | a pair with `None` on either side checks nothing, not even its set side: changing that parameter never changes the bounds verdict |
| `PriorProperties.ViolatedBoundRejects` | tutorials/v0.2/CustomPrior.py:57-60 | a value outside a fully set pair yields -inf, whatever the spacetime and the overlap function give |
| `PriorProperties.BoundsAreInclusive` | tutorials/v0.2/CustomPrior.py:59 | both end points of a set pair are admitted |
| `PriorProperties.DensityRaisesIff` | tutorials/v0.2/CustomPrior.py:74-76 | once the bounds, the radius cap and the photon-sphere cut pass, the call raises `ZeroDivisionError` exactly when the polar-radius proxy is 1 and `ValueError` exactly when it exceeds 1; it raises nowhere else |
| `PriorProperties.AcceptedIff` | tutorials/v0.2/CustomPrior.py:57-110 | 0.0 is returned exactly when all hold: the bounds; `R <= 16 km`; `1.5 < R_r_s`; `mu >= 1` (radicand `>= 1`); `R_p >= 1.76/R_r_s`; `p[4] <= p[7]`; `_psi(p[7], (p[10]-0.5-p[11])*2pi, p[4]) >= p[5]+p[8]`. An overlap exactly at the sum is accepted |
| `PriorProperties.AcceptedIsOblate` | tutorials/v0.2/CustomPrior.py:71-91 | an accepted vector has polar-radius proxy in `[2/3, 1)` and `R_r_s > 1.76`, so the 1.5 photon-sphere cut never decides an accepted vector |
| `PriorProperties.OrderingShortCircuitsOverlap` | tutorials/v0.2/CustomPrior.py:93-108 | with `p[4] > p[7]` the result is never 0.0 and is the same for every angular-separation function: the overlap function is never consulted |
| `Prior.CustomPrior.InverseSample` | tutorials/v0.2/CustomPrior.py:112-128 | the base sample with the distance replaced by the truncated-normal quantile of `hypercube[0]` and both phases wrapped, built by in-place slot writes |
| `PriorProperties.InverseSampledEntries` | tutorials/v0.2/CustomPrior.py:115-128 | same length as the base sample; position 0 is the distance; positions 10 and 11 drop by exactly 1 when above 0.5 and are otherwise unchanged; every other position equals the base sample |
| `PriorProperties.WrapPhaseRange` | tutorials/v0.2/CustomPrior.py:120-126 | a phase in `(-1/2, 3/2]` is wrapped into `(-1/2, 1/2]`, moved by zero or one cycle |
| `PriorProperties.SampledPhasesInRange` | tutorials/v0.2/CustomPrior.py:120-126 | base phases within the pulse model's bounds `[-0.25, 0.75]` (tutorials/model/main.py line 29) come out in `[-0.5, 0.5]` |
| `Prior.Transform` | tutorials/v0.2/CustomPrior.py:138-167 | extends the caller's list in place and returns that same list; a zero radius raises `ZeroDivisionError` before the list is touched |
| `PriorProperties.TransformedEntries` | tutorials/v0.2/CustomPrior.py:142-165 | the result has length `len(p)+5` and keeps `p` as its prefix. It appends, in order: `gravradius(p[1])/p[2]`, the phase separation, `p[3]-p[4]`, `p[3]+p[4]`, `p[3]-p[7]`. It raises exactly when `p[2] = 0` |
| `PriorProperties.PhaseSeparationRange` | tutorials/v0.2/CustomPrior.py:148-160 | the separation is `temps - tempp` or `temps - tempp + 1`, and lies in `[0, 1]` when both normalised phases do |
| `PriorProperties.PhaseSeparationReachesOne` | tutorials/v0.2/CustomPrior.py:157-160 | the upper end 1 is reached (primary 0, secondary 0.5) |
| `PriorProperties.SampledSeparationInRange` | tutorials/v0.2/CustomPrior.py:130-160 | for an inverse sample drawn with the pulse model's phase bounds and a non-zero radius, the transform succeeds and its phase separation lies in `[0, 1]` |
| `Prior.CustomPrior.InverseSampleAndTransform` | tutorials/v0.2/CustomPrior.py:130-134 | equals `transform(inverse_sample(h))`, including the raising case |
| `Instrument.Trunc` | tutorials/v0.2/CustomInstrument.py:53-56 | the input limits are truncated toward zero: `r <= x < r+1` for `x >= 0`, `r-1 < x <= r` for `x < 0` |
| `Instrument.TransposedSlice` | tutorials/v0.2/CustomInstrument.py:67 | a fresh 181-row matrix with one column per input row in `[lo, hi)`, entry `[i, j]` = `RMF[lo+j, 20+i]` |
| `Instrument.EnergyEdges` | tutorials/v0.2/CustomInstrument.py:69-71 | a fresh array of length `n+1`; `edges[0] = ARF[lo, 1]` and `edges[k+1] = ARF[lo+k, 2]` |
| `Instrument.ScaleByArea` | tutorials/v0.2/CustomInstrument.py:73-74 | every row is scaled in place by the same ARF effective-area column: `m[i, j]` becomes `old(m[i, j]) * ARF[lo+j, 3]` |
| `Instrument.ArangeEntries` | tutorials/v0.2/CustomInstrument.py:76 | `arange(start, stop)` has `stop-start` entries `start, start+1, ...`; for the channels, exactly the 181 integers 20..200 |
| `Instrument.EdgeColumnOfFullTable` | tutorials/v0.2/CustomInstrument.py:78 | for a map with at least 202 rows the stored channel edges are its rows 20..201 of column -2 of the table without its first column: 182 entries |
| `Instrument.CustomInstrument.FromResponseFiles` | tutorials/v0.2/CustomInstrument.py:40-79 | the instrument built from the tables: matrix entry `[i, j]` = `RMF[lo+j, 20+i] * ARF[lo+j, 3]` with 181 rows and `hi-lo` columns; edges as above; channels 20..200; channel edges from the map; `lo`, `hi` the truncated limits; `min_input` defaults to 0 and the energy map to `None`, which the model rejects by precondition |
| `Instrument.CustomInstrument.constructor` | tutorials/v0.2/CustomInstrument.py:12-15 | stores the channels, their edges and the base instrument's parameters, matrix and energy edges; nothing folded yet |
| `Instrument.CustomInstrument.ConstructMatrix` | tutorials/v0.2/CustomInstrument.py:26-29 | ignores the parameters and returns the stored matrix itself |
| `Instrument.CustomInstrument.Fold` | tutorials/v0.2/CustomInstrument.py:31-38 | returns `matrix . signal` (one entry per matrix row) and caches the same value as the folded signal; no other field changes |
| `Instrument.FoldIsAdditive` | tutorials/v0.2/CustomInstrument.py:36 | folding the entrywise sum of two signals gives the entrywise sum of their folds |
| `Instrument.RowDotIsResponseSum` | tutorials/v0.2/CustomInstrument.py:67-74 | through a constructed response, a row's dot product over the first `k` bins is the sum of RMF redistribution times ARF area times signal |
| `Instrument.FoldThroughResponse` | tutorials/v0.2/CustomInstrument.py:31-38 | folding through a constructed response gives 181 channels, each the area-weighted redistribution of the whole signal |

The `channels` and `channel_edges` properties (CustomInstrument.py:17-24) are
plain accessors. They are the `const` fields `channels` and `channelEdges` of
`CustomInstrument`.

## Left out

- File loading: the `np.loadtxt` calls, `skiprows`, and the print-and-re-raise on a load failure. The ARF, RMF and channel energy map are input tables.
- `Instrument.CustomInstrument.FromResponseFiles`: requires the channel energy map (`edgeTable.Some?`). The source slices it unconditionally and would fail with `None`; that failure is not modelled.
- `Instrument.CustomInstrument.FromResponseFiles`: requires `0 <= lo <= hi <= rows` and at least 201 RMF columns. numpy's clamping of out-of-range slices and the wrap-around of negative indices are not modelled.
- `Instrument.CustomInstrument.FromResponseFiles`: requires `lo` to be below the number of ARF rows. With `lo = hi =` that number the source raises `IndexError` at `ARF[min_input,1]`; that error is not modelled.
- `Instrument.CustomInstrument.FromResponseFiles`: requires an energy map with at least three columns. With two columns, one is left after the first is dropped, and taking column -2 raises `IndexError`; that error is not modelled.
- `Instrument.CustomInstrument.FromResponseFiles`: the limits are reals, so the model cannot tell an integer `0` from a float `0.0`. A float `0.0` skips `int()` and reaches the slices as a float, where numpy refuses it (`TypeError`). The model treats it as the integer 0.
- `Instrument.CustomInstrument.Fold`: folds one signal vector. numpy's `dot` treats a 2-D signal (one column per phase bin) column by column in the same way. A signal whose length differs from the matrix width is excluded by precondition; numpy would raise.
- `Prior.CustomPrior.Evaluate`: requires at least twelve parameters and at least as many parameters as bound pairs, even on paths that return before indexing them. Malformed vectors are a caller error.
- `Prior.Transform`: takes a list. For a non-list argument the source first copies it into a new list; that case is the caller building a fresh `ParamList`, as `InverseSampleAndTransform` does.
- External numerics stay uninterpreted, with no contracts of their own: the spacetime physics behind `update`, `_psi`, `gravradius`, `truncnorm.ppf` and the base-class inverse sampler.
- Floating point: values are exact reals, so there is no rounding, overflow or NaN. `sqrt` is not computed; `mu < 1` is decided on its radicand, which is equivalent for a non-negative radicand.
- The base `Instrument` initialiser is an abstract input. The model records the arguments passed to it (parameter count, bounds, matrix, energy edges); its checks and errors are not modelled.
- `tutorials/model/main.py` (the driver: loading, wiring, timing, sampler launch) and `tutorials/model/CustomPulse.py` (a forwarder to the native likelihood) are not part of this model.
