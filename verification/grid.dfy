/** The 256×256×3 sample grid that every script starts from: channel 0 is a
    constant plane, and the other two channels come from
    `np.meshgrid(values, values)` over `values = np.linspace(0, 255, 256,
    dtype=np.uint8)`, stacked along the last axis. */
module Grid {
  import opened NumPy

  /** Side of the square grid, and the number of distinct 8-bit values. */
  const Size: nat := 256

  /** `np.linspace(0, 255, Size, dtype=np.uint8)`: the step is exactly one, so
      the cast is the identity on indices. */
  function LinspaceBytes(): (values: seq<int>)
    ensures |values| == Size
    ensures forall i :: 0 <= i < Size ==> values[i] == i
  {
    var ys := Linspace(0.0, 255.0, Size);
    seq(Size, i requires 0 <= i < Size => FloatToUint8(ys[i]))
  }

  /** The sample image with constant channel `c`: the pixel at (row, col) is
      `(c, col, row)`. */
  function SampleGrid(c: int): (img: Image)
    requires IsByte(c)
    ensures HasShape(img, Size, Size)
    ensures forall row, col :: 0 <= row < Size && 0 <= col < Size ==>
      img[row][col] == Pixel(c, col, row)
    ensures forall row, col :: 0 <= row < Size && 0 <= col < Size ==>
      IsBytePixel(img[row][col])
  {
    var values := LinspaceBytes();
    var mesh := Meshgrid(values, values);
    Stack3(ConstantPlane(Size, Size, c), mesh.0, mesh.1)
  }
}
