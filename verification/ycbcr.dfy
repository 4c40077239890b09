/** The YCbCr script: a 256×256 image in OpenCV's YCrCb channel order with a
    constant luminance Y, Cr growing along the x-axis (columns) and Cb growing
    down the y-axis (rows), converted to RGB for display; and a sweep of such
    images over the luminance. */
module YCbCr {
  import opened NumPy
  import Grid
  import Sweep
  import Rgb
  import opened Conversion

  /** The default of `single --luminance`, which is handed to `create_cbcr`. */
  const DefaultLuminance: int := 127

  /** The axis labels the plot puts on the image. */
  const XLabel: string := "Cr"
  const YLabel: string := "Cb"

  /** Channel order expected by `COLOR_YCrCb2RGB`. */
  function Y(p: Pixel): int { p.c0 }
  function Cr(p: Pixel): int { p.c1 }
  function Cb(p: Pixel): int { p.c2 }

  /** The channel of `p` an axis label names. */
  function Channel(p: Pixel, name: string): int
    requires name in {"Y", "Cr", "Cb"}
  {
    if name == "Y" then Y(p) else if name == "Cr" then Cr(p) else Cb(p)
  }

  /** The YCrCb image `create_cbcr(luminance)` builds before converting it. It
      is the very grid `create_rgb(luminance)` returns: the two functions
      differ only in the conversion step. */
  function CreateCbcrInput(luminance: int): (img: Image)
    requires IsByte(luminance)
    ensures HasShape(img, Grid.Size, Grid.Size)
    ensures forall row, col :: 0 <= row < Grid.Size && 0 <= col < Grid.Size ==>
      Y(img[row][col]) == luminance && Cr(img[row][col]) == col && Cb(img[row][col]) == row
    ensures img == Rgb.CreateRgb(luminance)
  {
    Grid.SampleGrid(luminance)
  }

  /** `create_cbcr(luminance)`, with `conv` standing for OpenCV's per-pixel
      YCrCb-to-RGB conversion. */
  function CreateCbcr(luminance: int, conv: Pixel -> Pixel): (rgb: Image)
    requires IsByte(luminance)
    requires ConvertsBytes(conv)
    ensures HasShape(rgb, Grid.Size, Grid.Size)
    ensures forall row, col :: 0 <= row < Grid.Size && 0 <= col < Grid.Size ==>
      rgb[row][col] == conv(Pixel(luminance, col, row))
    ensures forall row, col :: 0 <= row < Grid.Size && 0 <= col < Grid.Size ==> IsBytePixel(rgb[row][col])
  {
    CvtColor(CreateCbcrInput(luminance), conv)
  }

  /** `create_cbcr` as `single` calls it without `--luminance`: the converted
      image of the grid whose Y plane is 127 everywhere. */
  function CreateCbcrDefault(conv: Pixel -> Pixel): (rgb: Image)
    requires ConvertsBytes(conv)
    ensures HasShape(rgb, Grid.Size, Grid.Size)
    ensures forall row, col :: 0 <= row < Grid.Size && 0 <= col < Grid.Size ==>
      rgb[row][col] == conv(Pixel(127, col, row))
  {
    CreateCbcr(DefaultLuminance, conv)
  }

  /** The channel each axis label names is the one that equals that axis's
      coordinate in the image handed to the converter. */
  lemma AxisLabelsMatchGrid(luminance: int)
    requires IsByte(luminance)
    ensures forall row, col :: 0 <= row < Grid.Size && 0 <= col < Grid.Size ==>
      Channel(CreateCbcrInput(luminance)[row][col], XLabel) == col &&
      Channel(CreateCbcrInput(luminance)[row][col], YLabel) == row
  {
  }

  /** The images of `multiple --steps steps`: one panel per swept luminance,
      in sweep order, each holding `create_cbcr` of its value. */
  function Multiple(steps: int, conv: Pixel -> Pixel): (r: Sweep.Result<seq<Sweep.Panel>>)
    requires ConvertsBytes(conv)
    ensures r.Ok? <==> steps >= 0
    ensures r.Err? ==> r.error == Sweep.NegativeSteps(steps)
    ensures r.Ok? ==> |r.value| == steps
    ensures r.Ok? ==> forall k :: 0 <= k < steps ==>
      r.value[k].value == Sweep.SweepValues(steps).value[k]
    ensures r.Ok? ==> forall k :: 0 <= k < steps ==>
      IsByte(r.value[k].value) && r.value[k].image == CreateCbcr(r.value[k].value, conv)
  {
    match Sweep.SweepValues(steps)
    case Err(e) => Sweep.Err(e)
    case Ok(values) =>
      Sweep.Ok(seq(|values|, k requires 0 <= k < |values| =>
        Sweep.Panel(values[k], CreateCbcr(values[k], conv))))
  }
}
