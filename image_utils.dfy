/** Conversions between OpenCV rasters and Halcon objects, and the geometric
    helpers of `ImageUtils`.

    The mask convention of the pipeline: a pixel of value 0 is inside the
    region, 255 is outside. `MatToHRegion` inverts its input before it
    thresholds, `HRegionToMat` renders inside pixels as 0. */
module ImageUtils {
  import opened Wrappers
  import opened Raster
  import opened Halcon

  /** `cv::bitwise_not` of a single-channel raster. */
  function Invert(m: Mat): (r: Mat)
    requires m.channels == 1
    ensures SameSize(r, m) && r.channels == 1
    ensures forall y, x :: 0 <= y < m.rows && 0 <= x < m.cols ==> r.px[y][x] == [255 - m.px[y][x][0]]
  {
    MatData(m.rows, m.cols, 1,
      seq(m.rows, (y: int) requires 0 <= y < m.rows =>
        seq(m.cols, (x: int) requires 0 <= x < m.cols => [255 - m.px[y][x][0]])))
  }

  /** The pixels of a single-channel raster whose value is not 255. */
  function NonWhite(m: Mat): (o: Obj)
    requires m.channels == 1
    ensures forall y, x :: (y, x) in o <==> 0 <= y < m.rows && 0 <= x < m.cols && m.px[y][x][0] != 255
  {
    set y, x | 0 <= y < m.rows && 0 <= x < m.cols && m.px[y][x][0] != 255 :: (y, x)
  }

  /** `ImageUtils::MatToHRegion`: invert, then `Threshold(1, 255)`.
      The input must be non-empty and single-channel (the source asserts both).
      The region is one object holding exactly the pixels that are not 255. */
  function MatToHRegion(lib: HalconLib, m: Mat): (r: Result<HRegion>)
    requires !Empty(m) && m.channels == 1
    ensures r.Failure? <==> lib.fails(ThresholdCall(Invert(m), 1.0, 255.0))
    ensures r.Ok? ==> r.value == HRegion([NonWhite(m)])
  {
    var inv := Invert(m);
    var res := Threshold(lib, inv, 1.0, 255.0);
    assert res.Ok? ==> res.value.objs[0] == NonWhite(m) by {
      if res.Ok? {
        forall y, x ensures (y, x) in res.value.objs[0] <==> (y, x) in NonWhite(m) {
        }
      }
    }
    res
  }

  /** `RegionToBin(0, 255, width, height)`: 0 on the pixels of the region,
      255 elsewhere, within the requested frame. */
  function Render(r: HRegion, width: nat, height: nat): (m: Mat)
    ensures m.rows == height && m.cols == width && m.channels == 1
    ensures forall y, x :: 0 <= y < height && 0 <= x < width ==>
      m.px[y][x] == (if (y, x) in Cover(r.objs) then [0] else [255])
  {
    var c := Cover(r.objs);
    MatData(height, width, 1,
      seq(height, (y: int) requires 0 <= y < height =>
        seq(width, (x: int) requires 0 <= x < width => if (y, x) in c then [0] else [255])))
  }

  /** Every pixel of a single-channel raster is 0 or 255. */
  predicate Binary(m: Mat)
  {
    m.channels == 1 &&
    forall y, x :: 0 <= y < m.rows && 0 <= x < m.cols ==> m.px[y][x][0] == 0 || m.px[y][x][0] == 255
  }

  /** Whether `HRegionToMat` treats a tuple as empty: its area tuple is empty
      or the first object's area is 0. */
  predicate FirstAreaZero(r: HRegion)
  {
    var a := Areas(r.objs);
    |a| == 0 || a[0] <= 0
  }

  /** `ImageUtils::HRegionToMat`. A non-positive frame gives a 1x1 black image;
      a tuple whose first area is 0 gives an all-255 frame; a throwing Halcon
      call gives an all-zero frame; otherwise the rendered region. */
  function HRegionToMat(lib: HalconLib, r: HRegion, width: int, height: int): (m: Mat)
    ensures width <= 0 || height <= 0 ==> m == Uniform(1, 1, 0)
    ensures width > 0 && height > 0 ==> m.rows == height && m.cols == width
    ensures m.channels == 1 && !Empty(m) && Binary(m)
  {
    if width <= 0 || height <= 0 then Uniform(1, 1, 0)
    else if lib.fails(AreaCall(r)) then Uniform(height, width, 0)
    else if FirstAreaZero(r) then Uniform(height, width, 255)
    else if lib.fails(RegionToBinCall(r, width, height)) then Uniform(height, width, 0)
    else Render(r, width, height)
  }

  /** Every path of `HRegionToMat` on which a Halcon call throws yields an
      all-zero image of the requested size. */
  lemma HRegionToMatFailure(lib: HalconLib, r: HRegion, width: int, height: int)
    requires width > 0 && height > 0
    requires lib.fails(AreaCall(r)) || (!FirstAreaZero(r) && lib.fails(RegionToBinCall(r, width, height)))
    ensures HRegionToMat(lib, r, width, height) == Uniform(height, width, 0)
  {
  }

  /** A tuple with no pixel in its first object renders as all 255, i.e. as
      "no region", whatever its later objects hold. */
  lemma HRegionToMatFirstObjectDecides(lib: HalconLib, r: HRegion, width: int, height: int)
    requires width > 0 && height > 0 && !lib.fails(AreaCall(r))
    requires |r.objs| == 0 || r.objs[0] == {}
    ensures HRegionToMat(lib, r, width, height) == Uniform(height, width, 255)
  {
  }

  /** On success with a non-empty first object, a pixel is 0 exactly when it
      belongs to some object of the tuple. */
  lemma HRegionToMatPolarity(lib: HalconLib, r: HRegion, width: int, height: int, y: int, x: int)
    requires width > 0 && height > 0 && 0 <= y < height && 0 <= x < width
    requires !lib.fails(AreaCall(r)) && !lib.fails(RegionToBinCall(r, width, height))
    requires |r.objs| > 0 && r.objs[0] != {}
    ensures HRegionToMat(lib, r, width, height).px[y][x] == [0] <==>
      exists i :: 0 <= i < |r.objs| && (y, x) in r.objs[i]
  {
    assert |r.objs[0]| > 0;
  }

  /** Two rasters with one size, channel count and pixels are equal. */
  lemma {:induction false} MatExt(a: Mat, b: Mat)
    requires SameSize(a, b) && a.channels == b.channels
    requires forall y, x :: 0 <= y < a.rows && 0 <= x < a.cols ==> a.px[y][x] == b.px[y][x]
    ensures a == b
  {
    forall y | 0 <= y < a.rows ensures a.px[y] == b.px[y] {
    }
    assert a.px == b.px;
  }

  /** A binary mask with no pixel other than 255 is the all-255 frame. */
  lemma WhiteMask(m: Mat)
    requires !Empty(m) && Binary(m) && NonWhite(m) == {}
    ensures Uniform(m.rows, m.cols, 255) == m
  {
    var u := Uniform(m.rows, m.cols, 255);
    forall y, x | 0 <= y < m.rows && 0 <= x < m.cols ensures u.px[y][x] == m.px[y][x] {
      assert (y, x) !in NonWhite(m);
    }
    MatExt(u, m);
  }

  /** A binary mask is the rendering of its one-object region. */
  lemma RenderedMask(m: Mat)
    requires !Empty(m) && Binary(m)
    ensures Render(HRegion([NonWhite(m)]), m.cols, m.rows) == m
  {
    var o := NonWhite(m);
    var back := Render(HRegion([o]), m.cols, m.rows);
    CoverSingleton(o);
    forall y, x | 0 <= y < m.rows && 0 <= x < m.cols ensures back.px[y][x] == m.px[y][x] {
      assert (y, x) in o <==> m.px[y][x][0] != 255;
    }
    MatExt(back, m);
  }

  /** Round trip: a {0, 255} mask converted to a region and rendered back in
      its own frame is the mask itself, when no Halcon call throws. */
  lemma {:induction false} MaskRoundTrip(lib: HalconLib, m: Mat)
    requires !Empty(m) && Binary(m)
    requires MatToHRegion(lib, m).Ok?
    requires !lib.fails(AreaCall(MatToHRegion(lib, m).value))
    requires !lib.fails(RegionToBinCall(MatToHRegion(lib, m).value, m.cols, m.rows))
    ensures HRegionToMat(lib, MatToHRegion(lib, m).value, m.cols, m.rows) == m
  {
    var r := MatToHRegion(lib, m).value;
    var o := NonWhite(m);
    assert r.objs == [o];
    if o == {} {
      assert |Areas(r.objs)| == 1 && Areas(r.objs)[0] == 0;
      WhiteMask(m);
    } else {
      assert Areas(r.objs)[0] == |o| > 0;
      RenderedMask(m);
    }
  }

  /** Rendering then converting back yields the region's pixels clipped to
      the frame, merged into one object. */
  lemma RenderedRegion(lib: HalconLib, r: HRegion, width: int, height: int)
    requires width > 0 && height > 0
    requires !lib.fails(AreaCall(r)) && !lib.fails(RegionToBinCall(r, width, height))
    requires |r.objs| > 0 && r.objs[0] != {}
    requires MatToHRegion(lib, HRegionToMat(lib, r, width, height)).Ok?
    ensures MatToHRegion(lib, HRegionToMat(lib, r, width, height)).value.objs ==
      [set p | p in Cover(r.objs) && 0 <= p.0 < height && 0 <= p.1 < width]
  {
    assert |r.objs[0]| > 0;
    var m := HRegionToMat(lib, r, width, height);
    var clip := set p | p in Cover(r.objs) && 0 <= p.0 < height && 0 <= p.1 < width;
    forall p ensures p in NonWhite(m) <==> p in clip {
      var (y, x) := p;
      if 0 <= y < height && 0 <= x < width {
        assert m.px[y][x] == (if (y, x) in Cover(r.objs) then [0] else [255]);
      }
    }
    assert NonWhite(m) == clip;
  }

  /** An integer rectangle (`QRect` / `cv::Rect`): top-left corner and size. */
  datatype Rect = Rect(x: int, y: int, width: int, height: int)

  /** The null rectangle `QRect()`, of zero size. */
  const NullRect := Rect(0, 0, 0, 0)

  /** `std::round`: to the nearest integer, halves away from zero. */
  function Round(v: real): (n: int)
    ensures v - 1.0 / 2.0 <= n as real <= v + 1.0 / 2.0
    ensures v >= 0.0 ==> n >= 0
  {
    if v >= 0.0 then (v + 1.0 / 2.0).Floor else -((-v + 1.0 / 2.0).Floor)
  }

  function Max(a: int, b: int): int { if a >= b then a else b }

  function Min(a: int, b: int): int { if a <= b then a else b }

  /** The label-to-image scaling of `mapLabelToImage`: every coordinate is
      multiplied by image size / label size and rounded. */
  function ScaleToImage(rect: Rect, cols: nat, rows: nat, labelW: int, labelH: int): Rect
    requires labelW > 0 && labelH > 0
  {
    var scaleX := cols as real / labelW as real;
    var scaleY := rows as real / labelH as real;
    Rect(Round(rect.x as real * scaleX), Round(rect.y as real * scaleY),
         Round(rect.width as real * scaleX), Round(rect.height as real * scaleY))
  }

  /** The part of rectangle `s` inside a `cols` x `rows` frame, or the null
      rectangle when that part is empty. */
  function Intersection(s: Rect, cols: int, rows: int): Rect
  {
    var left, top := Max(0, s.x), Max(0, s.y);
    var right, bottom := Min(s.x + s.width, cols), Min(s.y + s.height, rows);
    if left < right && top < bottom then Rect(left, top, right - left, bottom - top) else NullRect
  }

  /** `ImageUtils::mapLabelToImage`: scales a rectangle given in label
      coordinates to image coordinates, clamps it to the image and rejects
      it when nothing is left. `labelSize` is the label's (width, height), or
      `None` for a null label. The result is the null rectangle or
      lies inside the image, and it is the intersection of the scaled
      rectangle with the image frame. */
  method MapLabelToImage(rect: Rect, img: Mat, labelSize: Option<(int, int)>) returns (r: Rect)
    requires labelSize.Some? && labelSize.value.0 >= 0 && labelSize.value.1 >= 0 ==>
      labelSize.value.0 != 0 && labelSize.value.1 != 0
    ensures r == NullRect || (0 <= r.x && 0 <= r.y && r.width > 0 && r.height > 0 &&
                              r.x + r.width <= img.cols && r.y + r.height <= img.rows)
    ensures Empty(img) || labelSize.None? || labelSize.value.0 < 0 || labelSize.value.1 < 0 ==> r == NullRect
    ensures !Empty(img) && labelSize.Some? && labelSize.value.0 > 0 && labelSize.value.1 > 0 ==>
      r == Intersection(ScaleToImage(rect, img.cols, img.rows, labelSize.value.0, labelSize.value.1), img.cols, img.rows)
  {
    if Empty(img) || labelSize.None? {
      return NullRect;
    }
    var labelW, labelH := labelSize.value.0, labelSize.value.1;
    if labelW < 0 || labelH < 0 {
      return NullRect;
    }
    var scaled := ScaleToImage(rect, img.cols, img.rows, labelW, labelH);
    var x, y, w, h := scaled.x, scaled.y, scaled.width, scaled.height;
    if x < 0 { w := w + x; x := 0; }
    if y < 0 { h := h + y; y := 0; }
    if x + w > img.cols { w := img.cols - x; }
    if y + h > img.rows { h := img.rows - y; }
    if w <= 0 || h <= 0 {
      return NullRect;
    }
    return Rect(x, y, w, h);
  }

  /** A structuring element: its shape and size and the anchor (column, row). */
  datatype ElementShape = Ellipse
  datatype StructElement = StructElement(shape: ElementShape, width: int, height: int, anchor: (int, int))

  /** `ImageUtils::makeStructElement`: an elliptic element of odd side 2k + 1,
      anchored at its centre. OpenCV rejects a negative size, hence k >= 0. */
  function MakeStructElement(ksize: int): (e: StructElement)
    requires ksize >= 0
    ensures e.shape == Ellipse && e.width == e.height && e.width % 2 == 1 && e.width > ksize
    ensures e.anchor == (e.width / 2, e.height / 2) && e.anchor.0 == ksize
  {
    StructElement(Ellipse, 2 * ksize + 1, 2 * ksize + 1, (ksize, ksize))
  }
}

/** Byte-buffer layouts: OpenCV's interleaved BGR rows and Halcon's planar
    channel images, and `ImageUtils::MatToHImage` / `HImageToMat` between them. */
module ImageLayout {
  import opened Raster

  /** The continuous data of a `cv::Mat`: `rows` rows of `cols` pixels of
      `channels` interleaved bytes, row after row. */
  datatype MatBuffer = MatBuffer(rows: nat, cols: nat, channels: nat, data: seq<byte>)
  {
    predicate Valid()
    {
      |data| == rows * cols * channels
    }
  }

  /** A Halcon byte image: one row-major plane of `width * height` bytes per
      channel; a 3-channel image holds its planes in the order R, G, B. */
  datatype HImage = HImage(width: nat, height: nat, planes: seq<seq<byte>>)

  /** The object returned when the channel count is neither 1 nor 3. */
  const NoImage := HImage(0, 0, [])

  /** Channel `k` of an interleaved 3-channel buffer of `n` pixels:
      byte 3t + k for pixel t. */
  function Plane(data: seq<byte>, n: nat, k: nat): (p: seq<byte>)
    requires |data| == 3 * n && k < 3
    ensures |p| == n
  {
    seq(n, (t: int) requires 0 <= t < n => data[3 * t + k])
  }

  /** Three planes of `n` bytes interleaved as B, G, R. */
  function Interleave(b: seq<byte>, g: seq<byte>, r: seq<byte>): (d: seq<byte>)
    requires |b| == |g| == |r|
    ensures |d| == 3 * |b|
  {
    var n := |b|;
    seq(3 * n, (u: int) requires 0 <= u < 3 * n =>
      if u % 3 == 0 then b[u / 3] else if u % 3 == 1 then g[u / 3] else r[u / 3])
  }

  /** What `MatToHImage` builds from a valid buffer. */
  function ToHImage(m: MatBuffer): (img: HImage)
    requires m.Valid()
  {
    var n := m.rows * m.cols;
    if m.channels == 1 then HImage(m.cols, m.rows, [m.data])
    else if m.channels == 3 then
      HImage(m.cols, m.rows, [Plane(m.data, n, 2), Plane(m.data, n, 1), Plane(m.data, n, 0)])
    else NoImage
  }

  /** What `HImageToMat` builds from a byte image whose planes all hold
      `width * height` bytes. */
  function FromHImage(img: HImage): (m: MatBuffer)
    requires forall k :: 0 <= k < |img.planes| ==> |img.planes[k]| == img.width * img.height
    ensures m.Valid()
  {
    if |img.planes| == 1 then MatBuffer(img.height, img.width, 1, img.planes[0])
    else if |img.planes| == 3 then
      MatBuffer(img.height, img.width, 3, Interleave(img.planes[2], img.planes[1], img.planes[0]))
    else MatBuffer(0, 0, 1, [])
  }

  lemma Div3(t: int)
    requires t >= 0
    ensures (3 * t) / 3 == t && (3 * t + 1) / 3 == t && (3 * t + 2) / 3 == t
    ensures (3 * t) % 3 == 0 && (3 * t + 1) % 3 == 1 && (3 * t + 2) % 3 == 2
  {
  }

  /** Bytes 3t, 3t + 1 and 3t + 2 of an interleaved buffer are B, G and R of pixel t. */
  lemma InterleaveAt(b: seq<byte>, g: seq<byte>, r: seq<byte>, t: int)
    requires |b| == |g| == |r| && 0 <= t < |b|
    ensures var d := Interleave(b, g, r); d[3 * t] == b[t] && d[3 * t + 1] == g[t] && d[3 * t + 2] == r[t]
  {
    Div3(t);
  }

  /** A buffer that agrees with three planes pixel by pixel is their interleaving. */
  lemma {:induction false} InterleaveFrom(d: seq<byte>, b: seq<byte>, g: seq<byte>, r: seq<byte>)
    requires |b| == |g| == |r| && |d| == 3 * |b|
    requires forall t :: 0 <= t < |b| ==> d[3 * t] == b[t] && d[3 * t + 1] == g[t] && d[3 * t + 2] == r[t]
    ensures d == Interleave(b, g, r)
  {
    var e := Interleave(b, g, r);
    forall u | 0 <= u < |d| ensures d[u] == e[u] {
      var t := u / 3;
      assert u == 3 * t + u % 3 && 0 <= t < |b|;
      InterleaveAt(b, g, r, t);
    }
  }

  /** A plane that agrees with an interleaved buffer pixel by pixel is that
      buffer's plane. */
  lemma PlaneFrom(data: seq<byte>, n: nat, p: seq<byte>, k: nat)
    requires |data| == 3 * n && k < 3 && |p| == n
    requires forall s :: 0 <= s < n ==> p[s] == data[3 * s + k]
    ensures p == Plane(data, n, k)
  {
  }

  /** Plane `k` of an interleaving is the `k`-th interleaved plane. */
  lemma {:induction false} PlaneOfInterleave(b: seq<byte>, g: seq<byte>, r: seq<byte>, k: nat)
    requires |b| == |g| == |r| && k < 3
    ensures Plane(Interleave(b, g, r), |b|, k) == (if k == 0 then b else if k == 1 then g else r)
  {
    var d := Interleave(b, g, r);
    var want := if k == 0 then b else if k == 1 then g else r;
    forall t | 0 <= t < |b| ensures Plane(d, |b|, k)[t] == want[t] {
      InterleaveAt(b, g, r, t);
    }
  }

  /** Splitting an interleaved buffer into planes and interleaving them back
      gives the buffer again. */
  lemma {:induction false} SplitThenInterleave(m: MatBuffer)
    requires m.Valid() && (m.channels == 1 || m.channels == 3)
    ensures FromHImage(ToHImage(m)) == m
  {
    if m.channels == 3 {
      var n := m.rows * m.cols;
      assert |m.data| == 3 * n;
      var b, g, r := Plane(m.data, n, 0), Plane(m.data, n, 1), Plane(m.data, n, 2);
      forall t | 0 <= t < n ensures m.data[3 * t] == b[t] && m.data[3 * t + 1] == g[t] && m.data[3 * t + 2] == r[t] {
      }
      InterleaveFrom(m.data, b, g, r);
    }
  }

  /** Interleaving three planes and splitting the result gives the planes again. */
  lemma {:induction false} InterleaveThenSplit(img: HImage)
    requires |img.planes| == 3
    requires forall k :: 0 <= k < 3 ==> |img.planes[k]| == img.width * img.height
    ensures ToHImage(FromHImage(img)) == img
  {
    var b, g, r := img.planes[2], img.planes[1], img.planes[0];
    PlaneOfInterleave(b, g, r, 0);
    PlaneOfInterleave(b, g, r, 1);
    PlaneOfInterleave(b, g, r, 2);
    assert img.planes == [r, g, b];
  }

  /** Arithmetic of stepping from one row to the next. */
  lemma NextRow(i: nat, w: nat, h: nat)
    requires i < h
    ensures (i + 1) * w <= h * w
    ensures i * w + w == (i + 1) * w
  {
  }

  /** One row of the split: pixel `base + j` of the row whose bytes start at `p`. */
  method SplitRow(data: seq<byte>, p: nat, base: nat, width: nat, B: array<byte>, G: array<byte>, R: array<byte>)
    requires p == 3 * base && 3 * (base + width) <= |data|
    requires base + width <= B.Length && base + width <= G.Length && base + width <= R.Length
    requires B != G && G != R && B != R
    modifies B, G, R
    ensures forall s :: base <= s < base + width ==> B[s] == data[3 * s]
    ensures forall s :: base <= s < base + width ==> G[s] == data[3 * s + 1]
    ensures forall s :: base <= s < base + width ==> R[s] == data[3 * s + 2]
    ensures forall s :: 0 <= s < B.Length && !(base <= s < base + width) ==> B[s] == old(B[s])
    ensures forall s :: 0 <= s < G.Length && !(base <= s < base + width) ==> G[s] == old(G[s])
    ensures forall s :: 0 <= s < R.Length && !(base <= s < base + width) ==> R[s] == old(R[s])
  {
    var j := 0;
    while j < width
      invariant 0 <= j <= width
      invariant forall s :: base <= s < base + j ==> B[s] == data[3 * s]
      invariant forall s :: base <= s < base + j ==> G[s] == data[3 * s + 1]
      invariant forall s :: base <= s < base + j ==> R[s] == data[3 * s + 2]
      invariant forall s :: 0 <= s < B.Length && !(base <= s < base + j) ==> B[s] == old(B[s])
      invariant forall s :: 0 <= s < G.Length && !(base <= s < base + j) ==> G[s] == old(G[s])
      invariant forall s :: 0 <= s < R.Length && !(base <= s < base + j) ==> R[s] == old(R[s])
    {
      B[base + j] := data[p + 3 * j];
      G[base + j] := data[p + 3 * j + 1];
      R[base + j] := data[p + 3 * j + 2];
      j := j + 1;
    }
  }

  /** The nested row/column loop of the split, into fresh planes. */
  method SplitPlanes(data: seq<byte>, width: nat, height: nat) returns (B: array<byte>, G: array<byte>, R: array<byte>)
    requires |data| == 3 * (height * width)
    ensures B.Length == G.Length == R.Length == height * width
    ensures forall s :: 0 <= s < height * width ==>
      B[s] == data[3 * s] && G[s] == data[3 * s + 1] && R[s] == data[3 * s + 2]
  {
    var size := height * width;
    B := new byte[size];
    G := new byte[size];
    R := new byte[size];
    var i, t := 0, 0;
    while i < height
      invariant 0 <= i <= height && t == i * width && t <= size
      invariant forall s :: 0 <= s < t ==> B[s] == data[3 * s]
      invariant forall s :: 0 <= s < t ==> G[s] == data[3 * s + 1]
      invariant forall s :: 0 <= s < t ==> R[s] == data[3 * s + 2]
    {
      NextRow(i, width, height);
      SplitRow(data, 3 * t, t, width, B, G, R);
      i, t := i + 1, t + width;
    }
  }

  /** `ImageUtils::MatToHImage`: a single-channel buffer is copied as one plane;
      a 3-channel buffer is split so that B takes byte 3j, G byte 3j + 1 and
      R byte 3j + 2 of each pixel j; other channel counts give no image. */
  method MatToHImage(m: MatBuffer) returns (img: HImage)
    requires m.Valid()
    ensures img == ToHImage(m)
  {
    var height, width := m.rows, m.cols;
    var size := height * width;
    if m.channels == 1 {
      img := HImage(width, height, [m.data[..size]]);
      assert m.data[..size] == m.data;
    } else if m.channels == 3 {
      assert |m.data| == 3 * size;
      var B, G, R := SplitPlanes(m.data, width, height);
      PlaneFrom(m.data, size, B[..], 0);
      PlaneFrom(m.data, size, G[..], 1);
      PlaneFrom(m.data, size, R[..], 2);
      img := HImage(width, height, [R[..], G[..], B[..]]);
    } else {
      img := NoImage;
    }
  }

  /** One row of the interleave: pixel `base + j` into the row whose bytes start at `p`. */
  method InterleaveRow(B: seq<byte>, G: seq<byte>, R: seq<byte>, p: nat, base: nat, width: nat, out: array<byte>)
    requires |B| == |G| == |R| && base + width <= |B|
    requires p == 3 * base && 3 * (base + width) <= out.Length
    modifies out
    ensures forall s :: base <= s < base + width ==>
      out[3 * s] == B[s] && out[3 * s + 1] == G[s] && out[3 * s + 2] == R[s]
    ensures forall u :: 0 <= u < out.Length && !(3 * base <= u < 3 * (base + width)) ==> out[u] == old(out[u])
  {
    var j := 0;
    while j < width
      invariant 0 <= j <= width
      invariant forall s :: base <= s < base + j ==>
        out[3 * s] == B[s] && out[3 * s + 1] == G[s] && out[3 * s + 2] == R[s]
      invariant forall u :: 0 <= u < out.Length && !(3 * base <= u < 3 * (base + j)) ==> out[u] == old(out[u])
    {
      out[p + 3 * j] := B[base + j];
      out[p + 3 * j + 1] := G[base + j];
      out[p + 3 * j + 2] := R[base + j];
      j := j + 1;
    }
  }

  /** The nested row/column loop of the interleave, into a fresh buffer. */
  method InterleavePlanes(B: seq<byte>, G: seq<byte>, R: seq<byte>, width: nat, height: nat) returns (out: array<byte>)
    requires |B| == |G| == |R| == height * width
    ensures out.Length == 3 * (height * width)
    ensures forall s :: 0 <= s < height * width ==>
      out[3 * s] == B[s] && out[3 * s + 1] == G[s] && out[3 * s + 2] == R[s]
  {
    var size := height * width;
    out := new byte[3 * size];
    var i, t := 0, 0;
    while i < height
      invariant 0 <= i <= height && t == i * width && t <= size
      invariant forall s :: 0 <= s < t ==>
        out[3 * s] == B[s] && out[3 * s + 1] == G[s] && out[3 * s + 2] == R[s]
    {
      NextRow(i, width, height);
      InterleaveRow(B, G, R, 3 * t, t, width, out);
      i, t := i + 1, t + width;
    }
  }

  /** `ImageUtils::HImageToMat`: one plane is copied; three planes (R, G, B)
      are interleaved so that byte 3j of a pixel is B, 3j + 1 is G and 3j + 2
      is R; other channel counts give an empty raster. */
  method HImageToMat(img: HImage) returns (m: MatBuffer)
    requires forall k :: 0 <= k < |img.planes| ==> |img.planes[k]| == img.width * img.height
    ensures m == FromHImage(img)
  {
    var width, height := img.width, img.height;
    if |img.planes| == 1 {
      m := MatBuffer(height, width, 1, img.planes[0]);
    } else if |img.planes| == 3 {
      var R, G, B := img.planes[0], img.planes[1], img.planes[2];
      assert |B| == height * width;
      var out := InterleavePlanes(B, G, R, width, height);
      InterleaveFrom(out[..], B, G, R);
      m := MatBuffer(height, width, 3, out[..]);
    } else {
      m := MatBuffer(0, 0, 1, []);
    }
  }
}
