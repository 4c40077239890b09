/** The slice of NumPy array semantics the three colour-space scripts rely on:
    integer ranges, `linspace`, the `uint8` casts, constant planes, `meshgrid`
    with its default 'xy' indexing, and `stack` along a new last axis.

    A 2-D array is a row-major `seq<seq<_>>` (`a[row][col]`), and an H×W×3
    image is an H×W array of `Pixel`s, one `Pixel` holding the three entries
    along the last axis. Integers are unbounded; every place where the scripts
    depend on the 8-bit width is written out explicitly. */
module NumPy {

  /** The three entries of an H×W×3 array at one (row, col) position. */
  datatype Pixel = Pixel(c0: int, c1: int, c2: int)

  type Plane = seq<seq<int>>
  type Image = seq<seq<Pixel>>

  /** A value representable in `np.uint8`. */
  predicate IsByte(x: int) {
    0 <= x <= 255
  }

  predicate IsBytePixel(p: Pixel) {
    IsByte(p.c0) && IsByte(p.c1) && IsByte(p.c2)
  }

  /** `a` is a rectangular `rows × cols` array. */
  predicate HasShape<T>(a: seq<seq<T>>, rows: nat, cols: nat) {
    |a| == rows && forall r :: 0 <= r < rows ==> |a[r]| == cols
  }

  /** `a` and `b` have the same (possibly ragged) shape. */
  predicate SameShape<A, B>(a: seq<seq<A>>, b: seq<seq<B>>) {
    |a| == |b| && forall r :: 0 <= r < |a| ==> |a[r]| == |b[r]|
  }

  /** Python's `range(lo, hi)` with step 1. */
  function Range(lo: int, hi: int): (xs: seq<int>)
    ensures |xs| == if hi <= lo then 0 else hi - lo
    ensures forall i :: 0 <= i < |xs| ==> xs[i] == lo + i
  {
    if hi <= lo then [] else seq(hi - lo, i => lo + i)
  }

  /** `x.astype(np.uint8)` for an integer `x`: the value is reduced modulo 2^8. */
  function AsUint8(x: int): (b: int)
    ensures IsByte(b)
    ensures (x - b) % 256 == 0
    ensures IsByte(x) ==> b == x
  {
    x % 256
  }

  /** The conversion of a non-negative float below 2^8 to `np.uint8`, which
      drops the fractional part. */
  function FloatToUint8(x: real): (b: int)
    requires 0.0 <= x < 256.0
    ensures IsByte(b)
    ensures b as real <= x < b as real + 1.0
  {
    x.Floor
  }

  /** Python's `int(x)` on a float: truncation toward zero. */
  function TruncToInt(x: real): (n: int)
    ensures 0.0 <= x ==> 0 <= n && n as real <= x < n as real + 1.0
    ensures x < 0.0 ==> n <= 0 && n as real - 1.0 < x <= n as real
  {
    if 0.0 <= x then x.Floor else -((-x).Floor)
  }

  /** `np.linspace(start, stop, num)` with the default `endpoint=True`, in exact
      rational arithmetic: point `i` is `i * step + start` with
      `step = (stop - start) / (num - 1)`, and the last point is set to `stop`.
      With a single point there is no step and the point is `start`. */
  function Linspace(start: real, stop: real, num: nat): (ys: seq<real>)
    ensures |ys| == num
    ensures num >= 1 ==> ys[0] == start
    ensures num >= 2 ==> ys[num - 1] == stop
    ensures num >= 2 ==> forall i :: 0 <= i < num ==>
      ys[i] == (i as real) * ((stop - start) / ((num - 1) as real)) + start
  {
    if num <= 1 then
      seq(num, i => start)
    else
      var step := (stop - start) / ((num - 1) as real);
      assert ((num - 1) as real) * step == stop - start;
      seq(num, i => if i == num - 1 then stop else (i as real) * step + start)
  }

  /** For `x >= 0`, scaling by `i <= n` stays within scaling by `n`. */
  lemma ScaleMonotone(i: real, n: real, x: real)
    requires 0.0 <= i <= n
    requires 0.0 <= x
    ensures 0.0 <= i * x <= n * x
  {
    assert n * x - i * x == (n - i) * x;
    assert (n - i) * x >= 0.0;
    assert i * x >= 0.0;
  }

  /** Point `i` of an increasing linspace with at least two points is no
      greater than point `j >= i`. */
  lemma LinspaceOrdered(start: real, stop: real, num: nat, i: nat, j: nat)
    requires start <= stop
    requires 2 <= num && i <= j < num
    ensures Linspace(start, stop, num)[i] <= Linspace(start, stop, num)[j]
  {
    var ys := Linspace(start, stop, num);
    var step := (stop - start) / ((num - 1) as real);
    assert 0.0 <= step;
    var a := (i as real) * step;
    var b := (j as real) * step;
    assert ys[i] == a + start;
    assert ys[j] == b + start;
    ScaleMonotone(i as real, j as real, step);
    assert a <= b;
  }

  /** Every point of an increasing linspace lies between its endpoints, and
      the points never decrease. */
  lemma LinspaceWithin(start: real, stop: real, num: nat)
    requires start <= stop
    ensures forall i :: 0 <= i < num ==> start <= Linspace(start, stop, num)[i] <= stop
    ensures forall i, j :: 0 <= i <= j < num ==>
      Linspace(start, stop, num)[i] <= Linspace(start, stop, num)[j]
  {
    var ys := Linspace(start, stop, num);
    if num >= 2 {
      forall i, j | 0 <= i <= j < num
        ensures ys[i] <= ys[j]
      {
        LinspaceOrdered(start, stop, num, i, j);
      }
      forall i | 0 <= i < num
        ensures start <= ys[i] <= stop
      {
        LinspaceOrdered(start, stop, num, 0, i);
        LinspaceOrdered(start, stop, num, i, num - 1);
      }
    }
  }

  /** `np.ones(shape=(rows, cols), dtype=np.uint8) * v` for a `v` that fits in
      `uint8`: a plane holding `v` everywhere. */
  function ConstantPlane(rows: nat, cols: nat, v: int): (p: Plane)
    requires IsByte(v)
    ensures HasShape(p, rows, cols)
    ensures forall r, c :: 0 <= r < rows && 0 <= c < cols ==> p[r][c] == v
  {
    seq(rows, r => seq(cols, c => v))
  }

  /** `np.meshgrid(xs, ys)` with the default 'xy' indexing: both planes have
      one row per element of `ys` and one column per element of `xs`; the
      first plane varies along the columns, the second along the rows. */
  function Meshgrid(xs: seq<int>, ys: seq<int>): (m: (Plane, Plane))
    ensures HasShape(m.0, |ys|, |xs|) && HasShape(m.1, |ys|, |xs|)
    ensures forall r, c :: 0 <= r < |ys| && 0 <= c < |xs| ==> m.0[r][c] == xs[c]
    ensures forall r, c :: 0 <= r < |ys| && 0 <= c < |xs| ==> m.1[r][c] == ys[r]
  {
    (seq(|ys|, r => xs),
     seq(|ys|, r requires 0 <= r < |ys| => seq(|xs|, c => ys[r])))
  }

  /** `plane.astype(np.uint8)` applied entry by entry. */
  function CastPlane(p: Plane): (q: Plane)
    ensures SameShape(q, p)
    ensures forall r, c :: 0 <= r < |p| && 0 <= c < |p[r]| ==> q[r][c] == AsUint8(p[r][c])
  {
    seq(|p|, r requires 0 <= r < |p| =>
      seq(|p[r]|, c requires 0 <= c < |p[r]| => AsUint8(p[r][c])))
  }

  /** `np.stack([a, b, c], axis=2)`: NumPy demands equal shapes, and pixel
      (r, k) gathers the three planes' entries at (r, k) in argument order. */
  function Stack3(a: Plane, b: Plane, c: Plane): (img: Image)
    requires SameShape(a, b) && SameShape(a, c)
    ensures SameShape(img, a)
    ensures forall r, k :: 0 <= r < |a| && 0 <= k < |a[r]| ==>
      img[r][k] == Pixel(a[r][k], b[r][k], c[r][k])
  {
    seq(|a|, r requires 0 <= r < |a| =>
      seq(|a[r]|, k requires 0 <= k < |a[r]| => Pixel(a[r][k], b[r][k], c[r][k])))
  }

  /** Python's index `i` into a sequence of length `n`, where a negative index
      counts from the end. */
  function PyIndex(n: nat, i: int): (k: nat)
    requires -(n as int) <= i < n
    ensures k < n
    ensures 0 <= i ==> k == i
    ensures i < 0 ==> k + (-i) == n
  {
    if i < 0 then n + i else i
  }
}
