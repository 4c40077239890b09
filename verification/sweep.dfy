/** The constant-channel sweep behind the `multiple` command of the RGB and
    YCbCr scripts: `list(map(int, np.linspace(0, 255, steps)))`, followed by
    one image per swept value. */
module Sweep {
  import opened NumPy

  /** `np.linspace` refuses a negative number of samples. */
  datatype Error = NegativeSteps(steps: int)

  datatype Result<T> = Ok(value: T) | Err(error: Error)

  /** One image of a sweep together with the constant it was built for, as the
      scripts zip them for the panel titles. */
  datatype Panel = Panel(value: int, image: Image)

  /** The `--steps` default of both `multiple` commands. */
  const DefaultSteps: int := 3

  /** `list(map(int, np.linspace(0, 255, steps)))`. */
  function SweepValues(steps: int): (r: Result<seq<int>>)
    ensures r.Ok? <==> steps >= 0
    ensures r.Err? ==> r.error == NegativeSteps(steps)
    ensures r.Ok? ==> |r.value| == steps
    ensures r.Ok? ==> forall k :: 0 <= k < steps ==> IsByte(r.value[k])
    ensures r.Ok? && steps >= 1 ==> r.value[0] == 0
    ensures r.Ok? && steps >= 2 ==> r.value[steps - 1] == 255
    ensures r.Ok? ==> forall k, k' :: 0 <= k <= k' < steps ==> r.value[k] <= r.value[k']
  {
    if steps < 0 then
      Err(NegativeSteps(steps))
    else
      var ys := Linspace(0.0, 255.0, steps);
      LinspaceWithin(0.0, 255.0, steps);
      var values := seq(steps, k requires 0 <= k < steps => TruncToInt(ys[k]));
      assert forall k, k' :: 0 <= k <= k' < steps ==> values[k] <= values[k'] by {
        forall k, k' | 0 <= k <= k' < steps
          ensures values[k] <= values[k']
        {
          TruncMonotone(ys[k], ys[k']);
        }
      }
      Ok(values)
  }

  /** Truncation of non-negative reals never decreases. */
  lemma TruncMonotone(x: real, y: real)
    requires 0.0 <= x <= y
    ensures TruncToInt(x) <= TruncToInt(y)
  {
  }

  /** With the default three steps the swept constants are exactly 0, 127 and
      255: the midpoint 127.5 is exact in binary floating point and truncates
      to 127. */
  lemma DefaultSweepValues()
    ensures SweepValues(DefaultSteps) == Ok([0, 127, 255])
  {
    var ys := Linspace(0.0, 255.0, 3);
    assert ys[1] == 127.5;
    assert TruncToInt(127.5) == 127;
    var r := SweepValues(DefaultSteps);
    assert r.value[1] == 127;
    assert r.value == [0, 127, 255];
  }
}
