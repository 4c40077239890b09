/** `cv2.cvtColor(img, cv2.COLOR_YCrCb2RGB)` on an 8-bit image. The conversion
    constants and rounding belong to OpenCV and are not part of this model: the
    per-pixel converter is a parameter, and the one fact relied upon is that
    OpenCV saturates every output channel to 8 bits. */
module Conversion {
  import opened NumPy

  /** The converter maps 8-bit pixels to 8-bit pixels. */
  ghost predicate ConvertsBytes(conv: Pixel -> Pixel) {
    forall p :: IsBytePixel(p) ==> IsBytePixel(conv(p))
  }

  /** The image conversion: the output has the input's shape, and each output
      pixel depends on the input pixel at the same position alone. */
  function CvtColor(img: Image, conv: Pixel -> Pixel): (out: Image)
    ensures SameShape(out, img)
    ensures forall r, c :: 0 <= r < |img| && 0 <= c < |img[r]| ==> out[r][c] == conv(img[r][c])
  {
    seq(|img|, r requires 0 <= r < |img| =>
      seq(|img[r]|, c requires 0 <= c < |img[r]| => conv(img[r][c])))
  }
}
