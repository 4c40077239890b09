/** The interactive script: for each luminance it builds the YCrCb grid from
    `range(0, 256)` cast to `uint8`, converts it to RGB, and reports three
    probed pixels of both images before showing and saving the result. */
module Color {
  import opened NumPy
  import opened Conversion
  import YCbCr
  import opened Grid

  /** The luminances the script runs over, in order. */
  const Intensities: seq<int> := [0, 127, 255]

  /** The upper-left, lower-right and centre pixels of an image. */
  datatype Probes = Probes(upperLeft: Pixel, lowerRight: Pixel, center: Pixel)

  /** What one call of `show_cbcr` reports: its luminance and the probes of
      the YCrCb grid and of the converted RGB image. */
  datatype Report = Report(intensity: int, grid: Probes, rgb: Probes)

  /** `img[0, 0]`, `img[-1, -1]` and `img[size // 2, size // 2]`. */
  function Probe(img: Image): (p: Probes)
    requires HasShape(img, Size, Size)
    ensures p.upperLeft == img[0][0]
    ensures p.lowerRight == img[Size - 1][Size - 1]
    ensures p.center == img[Size / 2][Size / 2]
  {
    var last := PyIndex(Size, -1);
    var mid := PyIndex(Size, Size / 2);
    Probes(img[0][0], img[last][last], img[mid][mid])
  }

  /** The grid `show_cbcr(intensity)` builds: a constant Y plane stacked with
      the `uint8` casts of `np.meshgrid(range(0, size), range(0, size))`. */
  function ShowCbcrGrid(intensity: int): (img: Image)
    requires IsByte(intensity)
    ensures HasShape(img, Size, Size)
    ensures forall row, col :: 0 <= row < Size && 0 <= col < Size ==>
      img[row][col] == Pixel(intensity, col, row)
  {
    var y := ConstantPlane(Size, Size, intensity);
    var mesh := Meshgrid(Range(0, Size), Range(0, Size));
    Stack3(y, CastPlane(mesh.0), CastPlane(mesh.1))
  }

  /** Casting `range(0, 256)` to `uint8` wraps nothing, so `show_cbcr` builds
      exactly the image `create_cbcr` hands to the converter. */
  lemma ShowCbcrGridIsCreateCbcrInput(intensity: int)
    requires IsByte(intensity)
    ensures ShowCbcrGrid(intensity) == YCbCr.CreateCbcrInput(intensity)
  {
    var a := ShowCbcrGrid(intensity);
    var b := YCbCr.CreateCbcrInput(intensity);
    forall row | 0 <= row < Size
      ensures a[row] == b[row]
    {
      assert forall col :: 0 <= col < Size ==> a[row][col] == b[row][col];
    }
  }

  /** The values `show_cbcr(intensity)` prints: the grid probes are fixed by
      the coordinates, and the RGB probes are the converter applied to them. */
  function ShowCbcr(intensity: int, conv: Pixel -> Pixel): (r: Report)
    requires IsByte(intensity)
    requires ConvertsBytes(conv)
    ensures r.intensity == intensity
    ensures r.grid == Probes(Pixel(intensity, 0, 0), Pixel(intensity, 255, 255),
                             Pixel(intensity, 128, 128))
    ensures r.rgb == Probes(conv(r.grid.upperLeft), conv(r.grid.lowerRight), conv(r.grid.center))
    ensures IsBytePixel(r.rgb.upperLeft) && IsBytePixel(r.rgb.lowerRight) && IsBytePixel(r.rgb.center)
  {
    var img := ShowCbcrGrid(intensity);
    var rgb := CvtColor(img, conv);
    Report(intensity, Probe(img), Probe(rgb))
  }

  /** The script's main loop: one report per luminance 0, 127 and 255, in
      that order. */
  function Run(conv: Pixel -> Pixel): (reports: seq<Report>)
    requires ConvertsBytes(conv)
    ensures |reports| == 3
    ensures reports[0].intensity == 0 && reports[1].intensity == 127 && reports[2].intensity == 255
    ensures forall k :: 0 <= k < 3 ==> reports[k] == ShowCbcr(reports[k].intensity, conv)
  {
    seq(|Intensities|, k requires 0 <= k < |Intensities| => ShowCbcr(Intensities[k], conv))
  }
}
