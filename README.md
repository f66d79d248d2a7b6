# Signal Convolutor — a verified model of the convolution and animation-frame engine

The Signal Convolutor samples two user-parameterised periodic waveforms on a
100 Hz grid. It computes their full discrete convolution, scaled by the sample
step `dt`. It then animates the "flip and slide" picture of convolution:
for each shift index `k`,

- the second signal is time-reversed and shifted to `t_current = k * dt`, and
  restricted to its window;
- the product with the first signal is shown;
- the result curve is revealed up to `k`.

This project models that engine (everything in `app.py` that computes data) with
exact `real` arithmetic and integer sample indices:

- `waveform.dfy` (module `Waveform`): the shape dispatch of
  `get_primary_function`, the offset composition `f(t - xOffset) + yOffset`,
  and the `linspace` time axis. The library shapes `np.sin`, `signal.square`
  and `signal.sawtooth(x, width)` are function-valued fields of a `Library`
  value. They are left uninterpreted, so every result holds for any choice of
  them.
- `convolution.dfy` (module `Convolution`): `signal.convolve(y1, y2,
  mode='full') * dt` as a recursive sum, its time axis `arange(len) * dt`, and
  a double-loop method proved equal to it. It also proves commutativity,
  scaling, the support of the result and its first and last entries.
- `frame.dfy` (module `SlidingFrame`): the data half of `render_frame`. The
  sliding signal is built as the source builds it: a zero array, then an
  in-place overwrite through the mask. The module also covers the pointwise
  product, the revealed prefix of the result and its tip. The central theorem,
  `ProductAreaIsConvolution`, proves that on the exact-real grid the area
  under the product curve at shift `k` (its sum times `dt`) is exactly
  `convolved_full[k]`. This is the point of the whole animation. The
  program's mask is evaluated on doubles, and at some shifts it admits one
  sample more than the exact grid does, so there the program's area is off by
  one product term (see "## Left out").
- `animation.dfy` (module `Animation`): the stride
  `max(1, int(100 / anim_speed))`, the schedule `range(0, total_steps, skip)`
  as a loop, the idle midpoint `int(total_steps / 2)`, and one run of the
  driver. With Start pressed and Stop not pressed, a run plays every scheduled
  frame and reports "Done!". Otherwise it shows the midpoint frame.

The stride is sometimes described as `round(100 / fps)`. `app.py:126`
truncates with `int()`, and the model follows the code. For example, at 60
frames per second the stride is 1, not 2.

## Model

| member | source | states |
|---|---|---|
| `Waveform.Primary` | app.py:8-16 | `get_primary_function` at one time value; its meaning is stated by `PrimaryIsScaledShape` and `PrimaryBounded` |
| `Waveform.Classify` | app.py:9-16 | "Square", "Sawtooth" and "Triangle" select their shapes exactly on those strings; every other string, and only those, selects the sine |
| `Waveform.PrimaryIsScaledShape` | app.py:8-16 | the generator returns amplitude times the classified shape taken at 2·π·f·t (a triangle is a sawtooth of width 0.5); an unrecognised classification yields amplitude · sin(2·π·f·t) |
| `Waveform.PrimaryBounded` | app.py:8-16 | with a non-negative amplitude and a shape value in [-1, 1], the generated value lies in [-amplitude, amplitude] |
| `Waveform.Sample` | app.py:53-54 | one sample with offsets, `f(t - xOffset) + yOffset`; its meaning is stated by `SampleIsShiftedWave` and `Generate` |
| `Waveform.SampleIsShiftedWave` | app.py:52-54 | a sample with offsets is the offset-free wave taken at t - xOffset, plus yOffset |
| `Waveform.Generate` | app.py:52-54 | a signal has one sample per time-axis point, and sample i is f(axis[i] - xOffset) + yOffset |
| `Waveform.Linspace` | app.py:27 | `linspace(start, stop, num, endpoint=False)` has num points |
| `Waveform.TimeAxis` | app.py:27 | the time axis has int(100 · duration) points (their values are stated by `TimeAxisGrid`) |
| `Waveform.TimeAxisGrid` | app.py:25-27 | the time axis has int(100 · duration) points, and point i is exactly i · dt |
| `Convolution.Convolve` | app.py:57 | the full result has length \|y1\| + \|y2\| - 1 (empty if either operand is empty), and entry n is dt times the sum over k of y1[k] · y2[n - k] |
| `Convolution.FullAtOverValidIndices` | app.py:57 | entry n sums exactly the products whose two indices are both in range, k from max(0, n - \|y2\| + 1) to min(\|y1\|, n + 1); it is zero when that range is empty |
| `Convolution.FullAtOutsideIsZero` | app.py:57 | every index outside [0, \|y1\| + \|y2\| - 1) would give zero, so the full result drops no non-zero value |
| `Convolution.FullAtCommutes` | app.py:57 | each convolution entry is symmetric in the two operands |
| `Convolution.ConvolveCommutes` | app.py:57 | convolve(y1, y2) == convolve(y2, y1) |
| `Convolution.ConvolveScales` | app.py:57 | scaling one operand by a scales the whole result by a |
| `Convolution.ConvolveFirst` | app.py:57 | the first entry is y1[0] · y2[0] · dt |
| `Convolution.ConvolveLast` | app.py:57 | the last entry is y1[last] · y2[last] · dt |
| `Convolution.ConvolveDirect` | app.py:57 | the direct double loop, one accumulation over k per output index n, returns exactly the full convolution |
| `Convolution.ConvTimeAxis` | app.py:58 | the result's time axis has the result's length, and entry n is n · dt |
| `SlidingFrame.MakeScene` | app.py:52-58 | tau, y1 and y2 all have int(100 · duration) samples; the result and its time axis have equal length, 2N - 1 for a positive duration, and the time axis is arange(len) · dt |
| `SlidingFrame.SlidingSignal` | app.py:67-79 | the sliding signal has one value per tau point (its values are stated by BuildSliding and SlidingIsFlippedSignal) |
| `SlidingFrame.BuildSliding` | app.py:72-79 | starting from a zero buffer and overwriting only where 0 <= t_current - tau[i] < duration gives g(t_current - tau[i] - xOffset) + yOffset inside the mask and exactly 0 (no y-offset) outside it |
| `SlidingFrame.InWindow` | app.py:75 | the mask `0 <= t_local < duration`; on the sampled axis it is the index range of `WindowIsIndexRange` |
| `SlidingFrame.WindowIsIndexRange` | app.py:68-75 | on the sampled axis, t_current - tau[i] = (k - i) · dt, and the mask holds exactly when 0 <= k - i < N |
| `SlidingFrame.SlidingIsFlippedSignal` | app.py:67-79 | at shift k the sliding signal at tau[i] equals y2[k - i] when 0 <= k - i < N and 0 otherwise: y2 flipped and shifted by k samples |
| `SlidingFrame.ShiftZeroTouchesOnlyFirstSample` | app.py:72-82 | at shift 0 only i = 0 is in the window: the sliding signal there is g(-xOffset) + yOffset, and it and the product are 0 at every other point |
| `SlidingFrame.Product` | app.py:82 | the product has the signals' length, and product[i] = y1[i] · y2_sliding[i] |
| `SlidingFrame.FrameIsAligned` | app.py:72-89 | tau, Signal 1, the sliding signal and the product all have N points; Signal 1 is y1; sliding and product are 0 wherever the mask is false |
| `SlidingFrame.Rows` | app.py:92 | the result table pairs each convolution value with its time |
| `SlidingFrame.Visible` | app.py:93 | `iloc[:k+1]` is a prefix of the table, of length k + 1 (or the whole table if it is shorter) |
| `SlidingFrame.Tip` | app.py:113 | `iloc[-1:]` is present exactly for a non-empty table and is its last row |
| `SlidingFrame.FrameOf` | app.py:67-93 | the frame at shift k: tau and Signal 1 are the scene's axis and y1, the sliding and product columns have one value per tau point, the visible rows are a prefix of the result table, and the tip is present exactly when that prefix is non-empty (values stated by `FrameIsAligned`, `ProductAreaIsConvolution` and `VisibleGrowsByOne`) |
| `SlidingFrame.RenderFrame` | app.py:67-93 | rendering the frame at shift k (array-based sliding fill included) produces exactly `FrameOf` at k, the frame the lemmas are proved about |
| `SlidingFrame.ProductSumIsFullAt` | app.py:57-82 | the sum of y1 times y2 flipped and shifted by k is the unscaled entry k of the full convolution |
| `SlidingFrame.ProductAreaIsConvolution` | app.py:57-93 | at every shift index k of the result, the sum of the frame's product times dt is convolved_full[k] |
| `SlidingFrame.VisibleGrowsByOne` | app.py:92-113 | at shift k the revealed result has k + 1 rows, is a strict prefix of the one at k + 1, and its tip is the point (k · dt, convolved_full[k]) |
| `Animation.Skip` | app.py:126 | the stride is at least 1 and is the largest value whose product with the speed stays within 100 (truncation, not rounding) |
| `Animation.SkipOnSliderRange` | app.py:126 | for speeds 1..100 the stride is 100 / speed in integer division |
| `Animation.FrameCount` | app.py:128 | `len(range(0, total, skip))`: the fewest strides c with total <= c · skip, that is (c - 1) · skip < total unless c = 0 |
| `Animation.Schedule` | app.py:128 | the loop visits ceil(total / skip) indices; index j is j · skip, and all are below total |
| `Animation.ScheduleVisitsEveryMultiple` | app.py:128 | every multiple of skip below total is visited, as frame number m / skip |
| `Animation.ScheduleIncreases` | app.py:128 | the visited indices strictly increase |
| `Animation.Midpoint` | app.py:136 | the idle index int(total / 2) is the middle index and lies in [0, total) when total >= 1 |
| `Animation.IdleFrameIsPlayed` | app.py:128-137 | when the midpoint is a multiple of the stride, playback visits it, so the idle frame is also a played frame (with `Drive`'s ensures); this precondition fails at the default stride 2, see the next row |
| `Animation.IdleFrameSkippedAtDefaultSpeed` | app.py:24-136 | at the default speed 50 the stride is 2 and the midpoint 100 · duration - 1 is odd, so no played frame is the idle frame |
| `Animation.ComputeScene` | app.py:52-58 | the signals and the result computed with the direct method are the scene the frames are built from |
| `Animation.Play` | app.py:124-131 | playback renders ceil(total / skip) frames, and frame j is the frame at shift j · skip < total |
| `Animation.Drive` | app.py:123-137 | Start without Stop plays every scheduled frame in order and reports "Done!"; otherwise the single frame at the midpoint is shown |
| `Animation.FirstResultValue` | app.py:57 | the first value of the result is y1[0] · y2[0] · dt |
| `Animation.StrideExample` | app.py:126-128 | at 50 frames per second the stride is 2, and a 199-point result plays 100 frames, the last at 198 |
| `Animation.OneSecondExample` | app.py:25-57 | one second gives 100 samples per signal and a 199-point result |

## Left out

- Streamlit widgets, layout, buttons, placeholders and the status text widget (app.py:18-47, 60-65). Slider values are parameters (`Config`), and the status is the string in `Output.Played`.
- Altair chart construction (app.py:96-117). The tables the charts are drawn from are modelled: `Frame`'s `tau`, `signal1`, `sliding` and `product` are the columns of `df_interaction` (app.py:84-89), `Rows` is `df_result` (app.py:92), and `Frame.visible` and `Frame.tip` are its `iloc` slices (app.py:93, 113).
- `time.sleep(1 / anim_speed)` pacing (app.py:131), and Streamlit's rerun-on-event model of Start and Stop (app.py:119-123). Wall-clock time and the host framework are outside the model. One call of `Drive` is one run of the script.
- The values of `np.sin`, `signal.square` and `signal.sawtooth`. They are uninterpreted parameters, and `PrimaryBounded` takes their [-1, 1] range as a hypothesis.
- Floating-point rounding in `linspace`, `dt`, `t_current - tau` and the products. Values are exact reals, and `np.pi` is its shortest round-trip decimal 3.141592653589793.
- `SlidingFrame.WindowIsIndexRange`, `SlidingFrame.SlidingIsFlippedSignal` and `SlidingFrame.ProductAreaIsConvolution` hold on the exact-real grid, where the mask is exactly `0 <= k - i < N`. The program evaluates the mask on doubles (`tau[i] = i · fl(duration / N)`, `t_current = k · fl(0.01)`), and at `k - i == N` the difference sometimes rounds just below `duration`. In IEEE double arithmetic, for duration 1, k = 116 and i = 16, `fl(1.16) - fl(0.16)` is 0.9999999999999999 < 1. Between 11 and 92 shift indices per slider duration (1 to 10 s) are affected. At those shifts the program's mask also selects i = k - N, where the sliding signal is `g(≈ duration - xOffset) + yOffset` rather than 0. The program's product area then differs from `convolved_full[k]` by that one product term, a one-sample spike at the trailing edge of the window.
- The FFT or direct choice inside `scipy.signal.convolve`. Only its documented "full" result is modelled.
- `Convolution.Convolve`: an empty operand is modelled as an empty result. The app never convolves empty signals, because the duration is at least 1 second.
- `Waveform.Primary`: numpy evaluates it element by element over an array. The model takes one time value at a time, and `Generate` maps it over the axis.
