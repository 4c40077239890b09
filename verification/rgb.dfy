/** The RGB script: a 256×256 image with a constant red channel, green
    growing along the x-axis (columns) and blue growing down the y-axis
    (rows), and a sweep of such images over the red channel. */
module Rgb {
  import opened NumPy
  import Grid
  import Sweep

  /** The default of `create_rgb`'s `red` argument and of `single --red`. */
  const DefaultRed: int := 127

  /** The axis labels the plot puts on the image. */
  const XLabel: string := "Green"
  const YLabel: string := "Blue"

  function Red(p: Pixel): int { p.c0 }
  function Green(p: Pixel): int { p.c1 }
  function Blue(p: Pixel): int { p.c2 }

  /** The channel of `p` an axis label names. */
  function Channel(p: Pixel, name: string): int
    requires name in {"Red", "Green", "Blue"}
  {
    if name == "Red" then Red(p) else if name == "Green" then Green(p) else Blue(p)
  }

  /** `create_rgb(red)`. */
  function CreateRgb(red: int): (img: Image)
    requires IsByte(red)
    ensures HasShape(img, Grid.Size, Grid.Size)
    ensures forall row, col :: 0 <= row < Grid.Size && 0 <= col < Grid.Size ==>
      Red(img[row][col]) == red && Green(img[row][col]) == col && Blue(img[row][col]) == row
    ensures forall row, col :: 0 <= row < Grid.Size && 0 <= col < Grid.Size ==> IsBytePixel(img[row][col])
  {
    Grid.SampleGrid(red)
  }

  /** `create_rgb()` with no argument. */
  function CreateRgbDefault(): (img: Image)
    ensures HasShape(img, Grid.Size, Grid.Size)
    ensures forall row, col :: 0 <= row < Grid.Size && 0 <= col < Grid.Size ==> Red(img[row][col]) == 127
  {
    CreateRgb(DefaultRed)
  }

  /** The channel each axis label names is the one that equals that axis's
      coordinate: the x label names the channel equal to the column and the y
      label the channel equal to the row. */
  lemma AxisLabelsMatchGrid(red: int)
    requires IsByte(red)
    ensures forall row, col :: 0 <= row < Grid.Size && 0 <= col < Grid.Size ==>
      Channel(CreateRgb(red)[row][col], XLabel) == col &&
      Channel(CreateRgb(red)[row][col], YLabel) == row
  {
  }

  /** The images of `multiple --steps steps`: one panel per swept red value,
      in sweep order, each holding `create_rgb` of its value. */
  function Multiple(steps: int): (r: Sweep.Result<seq<Sweep.Panel>>)
    ensures r.Ok? <==> steps >= 0
    ensures r.Err? ==> r.error == Sweep.NegativeSteps(steps)
    ensures r.Ok? ==> |r.value| == steps
    ensures r.Ok? ==> forall k :: 0 <= k < steps ==>
      r.value[k].value == Sweep.SweepValues(steps).value[k]
    ensures r.Ok? ==> forall k :: 0 <= k < steps ==>
      IsByte(r.value[k].value) && r.value[k].image == CreateRgb(r.value[k].value)
  {
    match Sweep.SweepValues(steps)
    case Err(e) => Sweep.Err(e)
    case Ok(values) =>
      Sweep.Ok(seq(|values|, k requires 0 <= k < |values| => Sweep.Panel(values[k], CreateRgb(values[k]))))
  }
}
