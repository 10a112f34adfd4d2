# Colour classes and their sampler

A model of `playground/color_generation.py`, a helper module that samples
RGB triples from named colour classes and fills a preview grid with them.

- A colour class is a (color, shade) pair. `Color(color, shade)` selects the
  `low`/`high` bounds of an axis-aligned RGB box from eight fixed entries, and
  raises `NotImplementedError` for any other colour or shade
  (`ColorClasses.NewColor`, a total function returning `Ok` or `Err`).
- `contains` is `np.all((rgb >= low) & (rgb < high))`, modelled with `np.all`
  as a recursive conjunction (`Boxes.AllOf`) and proved to be the half-open
  box test.
- `contains_old` narrows the box's own membership test by a one-sided bound
  `rgb[2] - rgb[1] <= 0.05` for red/light.
- `sample` draws each channel from `[low, high)`, for red/light overwrites blue
  with green plus an offset, clips into `[low, high]` and asserts `contains`.
  The draws are parameters (`Sampling.Draw`), and `Sampling.Sample` is the
  imperative method, specified by the function `Sampling.SampleOf`.
- The clip is inclusive and `contains` is exclusive, so the assertion fails
  only if a channel is clipped down to `high` (`Boxes.ClipHalfOpen`); a
  channel clipped up to `low` stays inside. In-range draws never reach
  `high`, and for red/light the overridden blue stays below it when
  `high[1] + 0.05 <= high[2]` (`Sampling.SampleInBox`), which the table meets
  with equality (`Sampling.RedLightBoxIsTight`). `Sampling.SampleContained`
  proves the assertion cannot fail for any class the constructor builds. It
  also proves that for red/light blue minus green is exactly the offset.
- `plot_colors` builds one class and fills a zeroed `10 x 10 x 3` array, cell
  by cell, with samples. `sample_color` returns one sample of a new class.

Modules: `Boxes` (triples, boxes, `np.all`, `np.clip`), `ColorClasses` (the
constructor, the table, both membership tests), `Sampling` (override, sample,
`sample_color`, the grid).

## Model

| member | source | states |
|---|---|---|
| `Boxes.AllOf` | playground/color_generation.py:128 | `np.all` as a recursive conjunction of a boolean vector; true iff every element is true |
| `Boxes.Clip` | playground/color_generation.py:144 | every channel whose interval is non-empty lands in its closed interval `[low, high]` |
| `Boxes.ClipKeepsClosed` | playground/color_generation.py:144 | a triple already in the closed box is not changed by the clip |
| `Boxes.ClipIdempotent` | playground/color_generation.py:144 | clipping twice equals clipping once, for every box |
| `Boxes.ClipHalfOpen` | playground/color_generation.py:144-151 | on a box with `low[i] < high[i]`, the clipped triple is in the half-open box iff every input channel is below `high`; clipping up to `low` never breaks `contains` |
| `Boxes.ClipReachesHigh` | playground/color_generation.py:144-151 | the clip keeps a triple at the corner `high` there, and that triple fails the half-open test |
| `ColorClasses.NewColor` | playground/color_generation.py:30-103 | succeeds iff the colour is blue/red/green/dark and the shade is light/dark; keeps color and shade; every box has `low <= high`; the exact error for an unknown colour, and for an unknown shade under each colour |
| `ColorClasses.NewColorIsTableLookup` | playground/color_generation.py:42-99 | the constructor's branches equal a lookup in the eight-entry table keyed by (color, shade), in both directions |
| `ColorClasses.TableBoxesNonEmpty` | playground/color_generation.py:42-99 | every table entry has `low[i] < high[i]` in each channel, so draws exist |
| `ColorClasses.Contains` | playground/color_generation.py:122-128 | `np.all((rgb >= low) & (rgb < high))`; holds iff `low[i] <= rgb[i] < high[i]` for every channel |
| `ColorClasses.ContainsOld` | playground/color_generation.py:105-120 | gym's box test is a function parameter; the result implies that test, equals it outside red/light, and for red/light is that test and `rgb[2] - rgb[1] <= 0.05` |
| `ColorClasses.ContainsOldOverHalfOpen` | playground/color_generation.py:117-120 | with the half-open test as the box test, `contains_old` equals it outside red/light; for red/light it is that test plus `rgb[2] - rgb[1] <= 0.05` |
| `ColorClasses.ContainsOldIsOneSided` | playground/color_generation.py:119 | the red/light clause accepts a point whose blue is 0.23 below its green |
| `Sampling.RedLightOverride` | playground/color_generation.py:139-141 | the override keeps channels 0 and 1, and blue minus green equals the offset |
| `Sampling.SampleOf` | playground/color_generation.py:138-144 | the sample as a function of the draws: red and green are their draws clipped; blue is its draw clipped, or for red/light green's draw plus the offset, clipped |
| `Sampling.SampleInBox` | playground/color_generation.py:138-151 | for any box, in-range draws give a sample in the half-open box, provided `high[1] + 0.05 <= high[2]` for red/light; no condition on the lower bounds is needed |
| `Sampling.ClipIsIdentityOnDraws` | playground/color_generation.py:138-144 | for any box in which the override fits on both sides, the clip leaves in-range draws unchanged |
| `Sampling.RedLightBoxIsTight` | playground/color_generation.py:59-63 | red/light's blue bounds are green's bounds minus and plus exactly 0.05, so the upper condition of `SampleInBox` holds with equality |
| `Sampling.SampleContained` | playground/color_generation.py:138-152 | for every constructed class and in-range draws the sample satisfies `contains`, so the assertion never fires; for red/light blue minus green equals the offset and lies in `[-0.05, 0.05]`; otherwise the sample is the draw itself |
| `Sampling.SampleSatisfiesContainsOld` | playground/color_generation.py:138-152 | every sample also passes `contains_old` when the box test is half-open |
| `Sampling.DrawAtHighFailsAssertion` | playground/color_generation.py:144-151 | a draw equal to `high` survives the inclusive clip and fails `contains`, so the half-open draws are what keeps the assertion true |
| `Sampling.Sample` | playground/color_generation.py:130-152 | the imperative override, clip and assertion return `SampleOf` of the draws, which satisfies `contains`, with blue within 0.05 of green for red/light |
| `Sampling.SampleColor` | playground/color_generation.py:155-171 | fails with the constructor's error, or returns exactly one sample of the new class, which passes `contains` |
| `Sampling.SetCell` | playground/color_generation.py:24 | `array[i, j, :] = rgb` sets the three channels of one cell and no other cell |
| `Sampling.FillRow` | playground/color_generation.py:23-24 | the inner loop sets every cell of row `i` to the sample of that cell's draws and leaves the other rows alone |
| `Sampling.FillGrid` | playground/color_generation.py:22-24 | the nested loops set every cell `(i, j)` to the sample of draw `i * 10 + j` |
| `Sampling.GridCellsContained` | playground/color_generation.py:20-24 | every cell of a filled grid satisfies `contains` |
| `Sampling.PlotColors` | playground/color_generation.py:20-24 | fails with the constructor's error, or returns a fresh `10 x 10 x 3` array whose every cell is a sample of the same class and passes `contains` |

## Left out

- The display calls `plt.figure()` and `plt.imshow` and the debug `print("touched")`. These are output only. `Sampling.PlotColors` returns the array that would be shown.
- `np.random.uniform` is not modelled. Each call of `sample` takes its random numbers as a `Draw`, and `plot_colors` takes 100 draws used in row-major order. The model keeps only the range the random source guarantees, not the distribution.
- Floating point is not modelled: values are reals. In float32/float64 a uniform draw can round up to `high` and the bounds are rounded to float32. `Sampling.DrawAtHighFailsAssertion` shows that such a value would trip the assertion at line 151. The red/light box has zero slack in reals (`Sampling.RedLightBoxIsTight`), but in float32 0.6 rounds up and 0.65 rounds down, so the slack is slightly negative: green near 0.6 plus an offset near 0.05 can exceed blue's float32 `high` by a few times 1e-8, be clipped onto it, and fail the assertion.
- `contains_old` uses gym's `Box.contains`, which is library code not included here. `ColorClasses.ContainsOld` takes that test as a function parameter, and its lemmas use the half-open `contains`.
- `Color` is a datatype, not a class. Its fields are set only in `__init__` and never changed, and a function returning `Result` models the constructor's exceptions.
- `rgb` is a numpy array local to `sample`. It is modelled as a sequence that the method reassigns, overwriting `rgb[2]` with a sequence update.
- The nested loop of `plot_colors` is split into `FillGrid` (rows), `FillRow` (columns) and `SetCell` (the slice assignment) so that each proof stays small. The iteration order is the same.
- `Sampling.ValidDraw` allows the offset anywhere in the closed interval `[-0.05, 0.05]`, which covers numpy's half-open `[-0.05, 0.05)`. The proofs hold for the larger range.
- The code raises `NotImplementedError`, with the message the source gives or none, and the model keeps it.
- The code asserts only `contains` after the clip; `Sampling.SampleContained` also proves `-0.05 <= rgb[2] - rgb[1] <= 0.05` for red/light.
- The dark/light bounds `[1, 2]` lie outside the usual colour range. They are modelled as written.
- The grid side is the module constant `n_colors = 10` (`Sampling.NColors`), as in the code. It is not a parameter.
