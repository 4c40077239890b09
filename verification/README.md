# Colour-space sample grids

A Dafny model of the image-building core of the `color_space` scripts. Each of
the three scripts (`rgb.py`, `ycbcr.py`, `color.py`) builds a 256×256×3 8-bit
image. Channel 0 holds a constant: red for RGB, luminance Y for YCbCr. The other
two channels come from `np.meshgrid(values, values)` over the values 0..255.
Under NumPy's default `'xy'` indexing, channel 1 at (row, col) is `col` and
channel 2 is `row`. In `rgb.py` these are green on the x-axis and blue on the
y-axis. In the YCbCr scripts the channel order is OpenCV's YCrCb, so Cr is on
the x-axis and Cb on the y-axis. That image is then converted to RGB.

Modules:

- `NumPy` (`numpy.dfy`): the array primitives the scripts call. These are
  `range`, `linspace`, the two `uint8` casts, Python's `int()`, constant planes,
  `meshgrid` with `'xy'` indexing, `stack(axis=2)` and negative indexing.
  Images are row-major `seq<seq<Pixel>>`.
- `Grid` (`grid.dfy`): the shared sample grid built from
  `np.linspace(0, 255, 256, dtype=np.uint8)`.
- `Sweep` (`sweep.dfy`): the constant values swept by the `multiple` commands,
  and their error case.
- `Conversion` (`conversion.dfy`): `cv2.cvtColor(..., COLOR_YCrCb2RGB)` as a
  per-pixel map. The converter is a parameter, and it is assumed only to map
  8-bit pixels to 8-bit pixels.
- `Rgb`, `YCbCr`, `Color` (`rgb.dfy`, `ycbcr.dfy`, `color.dfy`): one module
  per script.

The converter is the only outside collaborator that reaches the model. It is
passed in as `conv: Pixel -> Pixel`, together with the requirement
`Conversion.ConvertsBytes(conv)`.

## Model

| member | source | states |
|---|---|---|
| NumPy.Range | color.py:20 | `range(lo, hi)` has `hi - lo` elements (none if `hi <= lo`), and element `i` is `lo + i` |
| NumPy.AsUint8 | color.py:21 | an integer cast to `uint8` is a byte congruent to the input modulo 256, and a value already in 0..255 is unchanged |
| NumPy.FloatToUint8 | rgb.py:19 | a float in [0, 256) cast to `uint8` is the byte just at or below it |
| NumPy.TruncToInt | rgb.py:90 | Python `int()` truncates toward zero: it lands within one unit of the input, on the side toward zero |
| NumPy.Linspace | rgb.py:19 | `linspace(start, stop, num)` has `num` points, starts at `start`, ends at `stop`, and point `i` is `i * (stop - start)/(num - 1) + start` |
| NumPy.LinspaceWithin | rgb.py:90 | for `start <= stop`, every linspace point lies in [start, stop], and the points never decrease |
| NumPy.ConstantPlane | rgb.py:18 | `np.ones((rows, cols), uint8) * v` is a `rows × cols` plane holding `v` at every position |
| NumPy.Meshgrid | rgb.py:20 | both mesh planes are `|ys| × |xs|`; the first plane at (r, c) is `xs[c]` and the second is `ys[r]` |
| NumPy.CastPlane | color.py:21 | casting a plane to `uint8` keeps its shape and casts every entry |
| NumPy.Stack3 | rgb.py:21 | stacking three equally shaped planes on axis 2 keeps the shape; pixel (r, k) is the three entries at (r, k), in argument order |
| NumPy.PyIndex | color.py:30 | a Python index in [-n, n) gives a position in [0, n); a negative index counts from the end |
| Grid.LinspaceBytes | rgb.py:19 | `linspace(0, 255, 256, dtype=uint8)` has 256 values, and value `i` is `i` |
| Grid.SampleGrid | rgb.py:17-21 | the grid is 256×256; pixel (row, col) is `(c, col, row)`; every channel is a byte when `c` is one |
| Rgb.CreateRgb | rgb.py:9-23 | the image is 256×256 with red equal to `red` everywhere, green equal to the column and blue equal to the row; every channel is a byte |
| Rgb.CreateRgbDefault | rgb.py:9 | with no argument, the red plane is 127 at every pixel |
| Rgb.AxisLabelsMatchGrid | rgb.py:41-43 | the x-axis label "Green" names the channel equal to the column; the y-axis label "Blue" names the channel equal to the row |
| Sweep.SweepValues | rgb.py:90 | a negative `steps` is an error; otherwise there are exactly `steps` values, all bytes, non-decreasing, starting at 0 and (for two or more steps) ending at 255 |
| Sweep.DefaultSweepValues | rgb.py:78-90 | with the default three steps, the swept values are exactly 0, 127, 255 |
| Rgb.Multiple | rgb.py:89-91 | fails exactly when `steps` is negative; otherwise it gives `steps` panels, in sweep order, and panel `k` holds `create_rgb` of swept value `k` |
| YCbCr.CreateCbcrInput | ycbcr.py:19-23 | before conversion the image is 256×256 with Y equal to `luminance`, Cr equal to the column and Cb equal to the row; it equals `create_rgb(luminance)` |
| Conversion.CvtColor | ycbcr.py:27 | the converted image has the input's shape, and pixel (r, c) is the converter applied to input pixel (r, c) alone |
| YCbCr.CreateCbcr | ycbcr.py:9-29 | the result is 256×256; pixel (row, col) is the converter applied to `(luminance, col, row)`; every channel is a byte |
| YCbCr.CreateCbcrDefault | ycbcr.py:62-70 | `single` without `--luminance` converts the grid whose Y plane is 127: pixel (row, col) is the converter applied to `(127, col, row)`, and the result is 256×256 |
| YCbCr.AxisLabelsMatchGrid | ycbcr.py:47-49 | the x-axis label "Cr" names the channel equal to the column; the y-axis label "Cb" names the channel equal to the row |
| YCbCr.Multiple | ycbcr.py:93-95 | fails exactly when `steps` is negative; otherwise it gives `steps` panels, in sweep order, and panel `k` holds `create_cbcr` of swept luminance `k` |
| Color.ShowCbcrGrid | color.py:18-22 | the grid is 256×256, and pixel (row, col) is `(intensity, col, row)` |
| Color.ShowCbcrGridIsCreateCbcrInput | color.py:18-22 | the `range`-and-cast grid of `show_cbcr(y)` is exactly the image `create_cbcr(y)` hands to the converter |
| Color.Probe | color.py:30 | the three probes are `img[0][0]`, `img[255][255]` (Python's `[-1, -1]`) and `img[128][128]` (`size // 2`) |
| Color.ShowCbcr | color.py:8-31 | the grid probes are `(Y,0,0)`, `(Y,255,255)` and `(Y,128,128)`; the RGB probes are the converter applied to them, and are bytes |
| Color.Run | color.py:38-40 | the script reports Y = 0, 127 and 255, in that order, one `show_cbcr` each |

## Left out

- Plotting: `show_rgb_map`, `show_cbcr_map`, the `plt.subplots`/`imshow`/`savefig`/`show` calls, and titles. These are display I/O. The axis labels are kept only as constants, to say which channel each axis shows.
- The `click` command groups and options. Only the defaults that reach the image code are kept: `red = 127` (rgb.py), `--luminance 127` (ycbcr.py) and `steps = 3`.
- `imview`, `imsave` and `print` in `color.py`. These are I/O. `Color.ShowCbcr` returns the printed values as a `Report` instead of printing them.
- OpenCV's YCrCb-to-RGB constants and rounding. This is a foreign library. The converter is a parameter, and its only assumed property is that it returns bytes for bytes.
- NumPy.Linspace: computes the points in exact rational arithmetic rather than float64. At the fixed call `linspace(0, 255, 256)` this is exact, because the float64 step is exactly 1.0. For other point counts, float64 rounding can differ in the last bit.
- Sweep.SweepValues: computes the linspace points in exact rational arithmetic rather than float64. Its contract claims only what float64 also guarantees: the count, the byte range, the order and the endpoints. The three-step case is also exact, since 127.5 is exactly representable. For other step counts, an interior point that lies exactly on an integer could truncate one lower under float64 rounding, and this model does not capture that.
- Constants outside 0..255 for `red`, `luminance` and `intensity`. The scripts do not check these, and `uint8` overflow behaviour depends on the NumPy version. The byte range is a precondition instead.
- The plotting step of `multiple`, which raises for small step counts. With `--steps 0`, `plt.subplots(1, 0)` raises `ValueError` (rgb.py:94, ycbcr.py:98). With `--steps 1`, `axes` is a single `Axes`, so `zip(axes, images, ...)` raises `TypeError` (rgb.py:95, ycbcr.py:99). Only the list of images built before plotting is modelled, and it is well defined for every `steps >= 0`.
- Input validation. The scripts check nothing, and the grid is always 256×256. The only error case modelled is `np.linspace`'s `ValueError` for a negative `steps` (rgb.py:90, ycbcr.py:94).
