/** Byte rasters (OpenCV `cv::Mat` of 8-bit depth) and the handful of OpenCV
    operations the pipeline relies on.

    A raster is a row-major grid: `px[y][x]` is the pixel in row `y`, column `x`,
    and a pixel is the sequence of its channel bytes (B, G, R for a colour
    image). Per-pixel colour conversions and the enhancement filter are
    foreign numerics; they are supplied by a `CvLib` record, so the model fixes
    only the shape of their results. */
module Raster {

  type byte = b: int | 0 <= b < 256

  type Pixel = seq<byte>

  datatype MatData = MatData(rows: nat, cols: nat, channels: nat, px: seq<seq<Pixel>>)
  {
    /** The grid has `rows` rows of `cols` pixels of `channels` bytes each. */
    predicate WellFormed()
    {
      channels >= 1 &&
      |px| == rows &&
      (forall y :: 0 <= y < rows ==> |px[y]| == cols) &&
      (forall y, x :: 0 <= y < rows && 0 <= x < cols ==> |px[y][x]| == channels)
    }
  }

  /** A raster whose grid matches its declared size. */
  type Mat = m: MatData | m.WellFormed() witness MatData(0, 0, 1, [])

  /** The default-constructed `cv::Mat()`: no pixels, one channel. */
  const EmptyMat: Mat := MatData(0, 0, 1, [])

  /** `cv::Mat::empty()`: the raster holds no pixel. */
  predicate Empty(m: Mat)
  {
    m.rows == 0 || m.cols == 0
  }

  predicate SameSize(a: Mat, b: Mat)
  {
    a.rows == b.rows && a.cols == b.cols
  }

  /** A single-channel raster whose every pixel has value `v`
      (`cv::Mat(rows, cols, CV_8UC1, Scalar(v))`, `Mat::zeros`). */
  function Uniform(rows: nat, cols: nat, v: byte): (m: Mat)
    ensures m.rows == rows && m.cols == cols && m.channels == 1
    ensures forall y, x :: 0 <= y < rows && 0 <= x < cols ==> m.px[y][x] == [v]
  {
    MatData(rows, cols, 1, seq(rows, y => seq(cols, x => [v])))
  }

  /** Tone-mapping parameters of the enhancement stage. */
  datatype Enhancement = Enhancement(brightness: int, contrast: real, gamma: real, sharpen: real)

  /** The foreign OpenCV numerics, as total functions:
      `luma` is BGR2GRAY of one (B, G, R) pixel, `hsv` is BGR2HSV of one pixel,
      `adjust(src, e, y, x, k)` is channel `k` of pixel (y, x) of
      `adjustParameter(src, e)` (contrast/brightness, gamma table, unsharp mask). */
  datatype CvLib = CvLib(
    luma: (byte, byte, byte) -> byte,
    hsv: (byte, byte, byte) -> (byte, byte, byte),
    adjust: (Mat, Enhancement, nat, nat, nat) -> byte)

  /** BGR2GRAY of one (B, G, R) pixel. */
  function GrayPixel(cv: CvLib, p: Pixel): (q: Pixel)
    requires |p| == 3
    ensures q == [cv.luma(p[0], p[1], p[2])]
  {
    [cv.luma(p[0], p[1], p[2])]
  }

  /** BGR2HSV of one (B, G, R) pixel. */
  function HsvPixel(cv: CvLib, p: Pixel): (q: Pixel)
    requires |p| == 3
    ensures |q| == 3
  {
    var h := cv.hsv(p[0], p[1], p[2]);
    [h.0, h.1, h.2]
  }

  /** Pixel (y, x) of `adjustParameter(m, e)`. */
  function AdjustedPixel(cv: CvLib, m: Mat, e: Enhancement, y: nat, x: nat): (q: Pixel)
    ensures |q| == m.channels
  {
    seq<byte>(m.channels, (k: int) requires 0 <= k => cv.adjust(m, e, y, x, k))
  }

  /** `cv::cvtColor(m, out, COLOR_BGR2GRAY)` on a 3-channel raster. */
  function BgrToGray(cv: CvLib, m: Mat): (r: Mat)
    requires m.channels == 3
    ensures SameSize(r, m) && r.channels == 1
    ensures forall y, x :: 0 <= y < m.rows && 0 <= x < m.cols ==>
      r.px[y][x] == [cv.luma(m.px[y][x][0], m.px[y][x][1], m.px[y][x][2])]
  {
    MatData(m.rows, m.cols, 1,
      seq(m.rows, (y: int) requires 0 <= y < m.rows =>
        seq(m.cols, (x: int) requires 0 <= x < m.cols =>
          GrayPixel(cv, m.px[y][x]))))
  }

  /** `cv::cvtColor(m, out, COLOR_BGR2HSV)` on a 3-channel raster. */
  function BgrToHsv(cv: CvLib, m: Mat): (r: Mat)
    requires m.channels == 3
    ensures SameSize(r, m) && r.channels == 3
    ensures forall y, x :: 0 <= y < m.rows && 0 <= x < m.cols ==>
      r.px[y][x] == HsvPixel(cv, m.px[y][x])
  {
    MatData(m.rows, m.cols, 3,
      seq(m.rows, (y: int) requires 0 <= y < m.rows =>
        seq(m.cols, (x: int) requires 0 <= x < m.cols =>
          HsvPixel(cv, m.px[y][x]))))
  }

  /** `cv::cvtColor(m, out, COLOR_GRAY2BGR)`: every channel repeats the gray value. */
  function GrayToBgr(m: Mat): (r: Mat)
    requires m.channels == 1
    ensures SameSize(r, m) && r.channels == 3
    ensures forall y, x :: 0 <= y < m.rows && 0 <= x < m.cols ==>
      r.px[y][x] == [m.px[y][x][0], m.px[y][x][0], m.px[y][x][0]]
  {
    MatData(m.rows, m.cols, 3,
      seq(m.rows, (y: int) requires 0 <= y < m.rows =>
        seq(m.cols, (x: int) requires 0 <= x < m.cols =>
          [m.px[y][x][0], m.px[y][x][0], m.px[y][x][0]])))
  }

  /** Plane `k` of `cv::split(m, planes)`. */
  function SplitChannel(m: Mat, k: nat): (r: Mat)
    requires k < m.channels
    ensures SameSize(r, m) && r.channels == 1
    ensures forall y, x :: 0 <= y < m.rows && 0 <= x < m.cols ==> r.px[y][x] == [m.px[y][x][k]]
  {
    MatData(m.rows, m.cols, 1,
      seq(m.rows, (y: int) requires 0 <= y < m.rows =>
        seq(m.cols, (x: int) requires 0 <= x < m.cols => [m.px[y][x][k]])))
  }

  /** `imageprocessor::adjustParameter`: an empty input comes back as it is;
      otherwise the result has the input's size and channel count and its
      bytes are the foreign filter's. */
  function AdjustParameter(cv: CvLib, m: Mat, e: Enhancement): (r: Mat)
    ensures Empty(m) ==> r == m
    ensures SameSize(r, m) && r.channels == m.channels
  {
    if Empty(m) then m
    else
      MatData(m.rows, m.cols, m.channels,
        seq(m.rows, (y: int) requires 0 <= y < m.rows =>
          seq(m.cols, (x: int) requires 0 <= x < m.cols =>
            AdjustedPixel(cv, m, e, y, x))))
  }

  /** Bitwise AND of two naturals, bit by bit from the least significant one. */
  function AndNat(a: nat, b: nat): (r: nat)
    ensures r <= a && r <= b
    ensures a == 0 || b == 0 ==> r == 0
    decreases a
  {
    if a == 0 || b == 0 then 0
    else 2 * AndNat(a / 2, b / 2) + (if a % 2 == 1 && b % 2 == 1 then 1 else 0)
  }

  /** The number whose `k` low bits are all set. */
  function Ones(k: nat): nat
  {
    if k == 0 then 0 else 2 * Ones(k - 1) + 1
  }

  /** AND with an all-ones mask that covers `b` leaves `b` unchanged. */
  lemma {:induction false} AndOnes(k: nat, b: nat)
    requires b <= Ones(k)
    ensures AndNat(Ones(k), b) == b && AndNat(b, Ones(k)) == b
  {
    if k == 0 || b == 0 {
    } else {
      assert Ones(k) / 2 == Ones(k - 1);
      AndOnes(k - 1, b / 2);
    }
  }

  /** Bitwise AND of two bytes: 255 is its unit and 0 absorbs. */
  function AndByte(a: byte, b: byte): (r: byte)
    ensures r <= a && r <= b
    ensures a == 255 ==> r == b
    ensures b == 255 ==> r == a
    ensures a == 0 || b == 0 ==> r == 0
  {
    assert Ones(8) == 255;
    AndOnes(8, a);
    AndOnes(8, b);
    AndNat(a, b)
  }

  /** `cv::bitwise_and(a, b, out)` on two single-channel rasters of one size. */
  function BitwiseAnd(a: Mat, b: Mat): (r: Mat)
    requires a.channels == 1 && b.channels == 1 && SameSize(a, b)
    ensures SameSize(r, a) && r.channels == 1
    ensures forall y, x :: 0 <= y < a.rows && 0 <= x < a.cols ==>
      r.px[y][x] == [AndByte(a.px[y][x][0], b.px[y][x][0])]
  {
    MatData(a.rows, a.cols, 1,
      seq(a.rows, (y: int) requires 0 <= y < a.rows =>
        seq(a.cols, (x: int) requires 0 <= x < a.cols => [AndByte(a.px[y][x][0], b.px[y][x][0])])))
  }

  /** Per-channel inclusive bounds of `cv::inRange` on a 3-channel raster. */
  datatype Bounds3 = Bounds3(lo0: int, hi0: int, lo1: int, hi1: int, lo2: int, hi2: int)

  predicate InBounds(p: Pixel, b: Bounds3)
    requires |p| == 3
  {
    b.lo0 <= p[0] <= b.hi0 && b.lo1 <= p[1] <= b.hi1 && b.lo2 <= p[2] <= b.hi2
  }

  /** `cv::inRange(m, lower, upper, out)`: 255 where every channel lies within
      its bounds, 0 elsewhere. */
  function InRange(m: Mat, b: Bounds3): (r: Mat)
    requires m.channels == 3
    ensures SameSize(r, m) && r.channels == 1
    ensures forall y, x :: 0 <= y < m.rows && 0 <= x < m.cols ==>
      r.px[y][x] == (if InBounds(m.px[y][x], b) then [255] else [0])
  {
    MatData(m.rows, m.cols, 1,
      seq(m.rows, (y: int) requires 0 <= y < m.rows =>
        seq(m.cols, (x: int) requires 0 <= x < m.cols =>
          if InBounds(m.px[y][x], b) then [255] else [0])))
  }

  /** `m(cv::Rect(x, y, w, h)).clone()`: the w-by-h block whose top-left pixel is (y, x). */
  function Crop(m: Mat, x: nat, y: nat, w: nat, h: nat): (r: Mat)
    requires x + w <= m.cols && y + h <= m.rows
    ensures r.rows == h && r.cols == w && r.channels == m.channels
    ensures forall i, j :: 0 <= i < h && 0 <= j < w ==> r.px[i][j] == m.px[y + i][x + j]
  {
    MatData(h, w, m.channels,
      seq(h, (i: int) requires 0 <= i < h =>
        seq(w, (j: int) requires 0 <= j < w => m.px[y + i][x + j])))
  }
}
