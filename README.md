# Margin analyser of the TX results plot helpers

This project models the margin analyser in `processing/plots/plot_helpers.py`. The analyser takes a series of measurements `y` (for example the gain of a frequency sweep) and a lower and an upper spec limit. Each limit is either a single number or a list with one value per point. The analyser:

- computes a signed margin for every point, `min(y[i] - lo[i], hi[i] - y[i])`. It is negative when the point is out of spec;
- reduces the margins to their minimum;
- locates the worst-case point, taking the x-value and the margin at the first index of least margin;
- returns the verdict PASS when the minimum margin is at least 0, and FAIL otherwise.

The analyser is built from NumPy array operations. Their behaviour is modelled in module `NdArray` (`ndarray.dfy`):

- one-dimensional broadcasting of `-` and `np.minimum`. Two lengths broadcast when they are equal or one of them is 1;
- `np.full_like`;
- `np.min` and `np.argmin`, with `argmin` returning the first index of least value;
- the exceptions these operations raise: operands that do not broadcast, a reduction over an empty array, and a list indexed past its end. They are the `Err` cases of a `Result`.

Module `PlotHelpers` (`plot_helpers.dfy`) holds the four analyser functions. It also holds the computation that `plot_tx_results` performs with its fixed 14 dB and 16 dB limits, without the reading of the data and without the figure. Every function is pure, as in the source. Values are exact reals.

Two behaviours come from NumPy and Python semantics rather than from explicit checks in the code, and the model keeps them:

- A limit list of length 1 is not an error. NumPy broadcasts it, so it acts like the scalar it holds (`SingletonListIsScalar`). Likewise a series of length 1 stretches to the length of a list limit (`SingletonSeriesStretches`). Apart from an empty margin array, on which `np.min` raises, only lengths that do not broadcast make `calc_margins` raise.
- `x_values` need not have the same length as the margins. A longer list is accepted. A shorter list fails only when the first index of least margin lies past its end (`FindWorstCasePoint`, `AnalyseTxResults`).

Every function here is deterministic by construction, so calling them twice on the same inputs gives the same outputs. No lemma is needed for that.

## Model

| member | source | states |
|---|---|---|
| `NdArray.BroadcastLength` | processing/plots/plot_helpers.py:20-22 | two broadcastable lengths give the common length when they are equal, and the other length when one of them is 1 |
| `NdArray.Apply` | processing/plots/plot_helpers.py:20-22 | one element of `-` or `np.minimum`: the difference `p - q`, or the smaller of `p` and `q` |
| `NdArray.Ufunc` | processing/plots/plot_helpers.py:20-22 | an element-wise `-` or `np.minimum` succeeds exactly when the operand lengths broadcast, otherwise it reports the mismatch. Its result has the broadcast length, and each element is the operation applied to the operands' (stretched) elements at that index |
| `NdArray.UfuncAligned` | processing/plots/plot_helpers.py:20-22 | on equal-length operands the operation succeeds and is applied index by index |
| `NdArray.UfuncStretchesSingleton` | processing/plots/plot_helpers.py:17-22 | a one-element operand, on either side, gives the same result as an operand that repeats its element along the other operand |
| `NdArray.MinOf` | processing/plots/plot_helpers.py:24 | the minimum of a non-empty array is one of its elements and is at most every element |
| `NdArray.ArgMinOf` | processing/plots/plot_helpers.py:29 | argmin returns an index of a least element, and every earlier element is strictly larger (ties go to the first index) |
| `NdArray.ArgMinCharacterization` | processing/plots/plot_helpers.py:29 | an index is the first index of least value if and only if it is the one argmin returns |
| `NdArray.MinAtArgMin` | processing/plots/plot_helpers.py:29-31 | the element at argmin is the array's minimum |
| `NdArray.Min` | processing/plots/plot_helpers.py:24 | `np.min` raises on an empty array and only then; otherwise it returns an element that is at most every element |
| `NdArray.ArgMin` | processing/plots/plot_helpers.py:29 | `np.argmin` raises on an empty array and only then; otherwise it returns the first index of least value |
| `NdArray.Full` | processing/plots/plot_helpers.py:17-18 | `np.full_like` gives n copies of the fill value |
| `PlotHelpers.LimitArray` | processing/plots/plot_helpers.py:17-18 | a list limit is taken as it is; a scalar limit becomes one copy per point of the series |
| `PlotHelpers.PointMargin` | processing/plots/plot_helpers.py:20-22 | a point's margin is the smaller of its distance above the lower limit and its distance below the upper limit. It is non-negative exactly when the point lies within its limits, both bounds included |
| `PlotHelpers.CalcMargins` | processing/plots/plot_helpers.py:14-25 | it succeeds exactly when `y - lo`, `hi - y` and `np.minimum` of the two all broadcast and the margin array is not empty. Otherwise it fails with the first error in source order: the lower limit's length, then the upper limit's, then the two differences' lengths, then the empty reduction. With aligned limits the only failure is an empty series, and the margin array is as long as the series. Each margin is the point margin of the broadcast operands at its index. The returned minimum is one of the margins and is at most all of them |
| `PlotHelpers.CalcMarginsAligned` | processing/plots/plot_helpers.py:16-24 | with scalar or same-length list limits over a non-empty series, the margin array has one entry per point, `min(y[i] - lo[i], hi[i] - y[i])` |
| `PlotHelpers.SingletonSeriesStretches` | processing/plots/plot_helpers.py:20-22 | a one-point series against list limits of a common non-zero length gets one margin per limit entry: the single measurement's margin against the limits at that entry |
| `PlotHelpers.ScalarIsUniformList` | processing/plots/plot_helpers.py:17-18 | a scalar limit gives the same result as a list that repeats it once per point, for either limit |
| `PlotHelpers.SingletonListIsScalar` | processing/plots/plot_helpers.py:17-18 | a one-element list limit gives the same result as the scalar it holds, for either limit and any series length, errors included |
| `PlotHelpers.FindWorstCasePoint` | processing/plots/plot_helpers.py:27-32 | an empty margin array raises. Enough x-values give a result, namely the x-value and the margin at the first index of least margin, and that margin is the minimum. Otherwise it reports the index past the end of the x list |
| `PlotHelpers.CalcPassFail` | processing/plots/plot_helpers.py:34-37 | an empty margin array raises and only then. PASS holds exactly when no margin is negative, so a zero margin passes. FAIL holds exactly when some margin is negative |
| `PlotHelpers.CalcStatusAndMargins` | processing/plots/plot_helpers.py:39-43 | succeeds exactly when `calc_margins` does, and otherwise fails with its error. It returns the margin array and minimum of `calc_margins`, and its status is PASS exactly when that minimum is at least 0 |
| `PlotHelpers.WorstMarginIsMinMargin` | processing/plots/plot_helpers.py:29-31 | on the margins of `calc_margins`, with enough x-values, the worst-case margin equals the minimum margin. It is found at the x-value of the first index of least margin |
| `PlotHelpers.PassIffAllInBounds` | processing/plots/plot_helpers.py:36-37 | for a non-empty series with aligned limits: PASS if and only if every point lies within its limits; FAIL if and only if some point lies outside them; FAIL if and only if the minimum margin is negative |
| `PlotHelpers.ExampleSweepFails` | processing/plots/plot_helpers.py:39-43 | the sweep 10, 20, 5, 30 against limits 0 and 25 has margins 10, 5, 5, -5. It fails with minimum margin -5, and its worst-case point is the last one |
| `PlotHelpers.ExampleTieGoesToFirst` | processing/plots/plot_helpers.py:29-32 | of two points sharing the least margin, the first one is reported |
| `PlotHelpers.ExampleBoundaryPasses` | processing/plots/plot_helpers.py:36-37 | measurements exactly on the limits have margin 0 and pass |
| `PlotHelpers.AnalyseTxResults` | processing/plots/plot_helpers.py:50-60 | with the fixed 14 dB and 16 dB limits, a non-empty gain series with at least as many frequencies gives a report. Any report comes from a non-empty series |
| `PlotHelpers.TxReportFields` | processing/plots/plot_helpers.py:55-60 | the TX report's verdict is `calc_pass_fail` of the margins, its minimum is `calc_margins`' minimum, and its frequency and critical gain are those at `np.argmin` of the margins, which has one entry per gain |
| `PlotHelpers.TxReportConsistent` | processing/plots/plot_helpers.py:55-60 | the TX verdict is PASS exactly when every gain lies within 14 dB to 16 dB. The reported frequency and critical gain belong to one point, whose margin is the reported minimum. No point has a smaller margin, and every earlier point has a larger one |

## Left out

- `read_tx_results` (processing/plots/plot_helpers.py:7-12) reads a CSV file through pandas. `AnalyseTxResults` takes the frequency and gain columns as parameters instead.
- The figure built by `plot_tx_results` is left out: the Plotly traces, limit lines, marker colour, annotation text and its `.1f` and `.2f` formatting. It is presentation through a foreign library. Only the analysis it annotates is modelled.
- `source/conf.py` is not part of this model. It is declarative documentation-build configuration with no computation.
- Floating point is left out. Values are exact reals, so rounding in `y - lo` and NaN handling in `np.minimum` and `np.min` are not modelled.
- The model assumes a real-valued `y`. `np.full_like` takes the dtype of `y`, so an integer series with a fractional scalar limit truncates the limit; that is not modelled.
- Limits are modelled as a number or a Python list. A tuple or NumPy array passed as a limit goes down the `np.full_like` branch in the source, and that case is not modelled.
- Inputs that are not one-dimensional are not modelled, because broadcasting is modelled for one-dimensional arrays only.
- Inverted limits (lower above upper) are not validated by the source, and the model does not validate them either. Such a point simply gets a negative margin.
