/** Halcon regions and the Halcon operators the pipeline calls.

    A region object is a finite set of pixel positions (row, column); an
    `HRegion` is a tuple of such objects, as Halcon's `HRegion` may hold
    several regions at once. Operators whose geometry is Halcon's own
    (morphology, connected components, hole filling, shape transforms, shape
    features, polygon rasterisation) are uninterpreted functions held in a
    `HalconLib` record; whether a call throws an `HException` is decided by the
    record's `fails` predicate on a description of the call. Thresholding,
    shape selection, union, intersection and area are given their meaning here. */
module Halcon {
  import opened Wrappers
  import opened Raster

  /** A pixel position: (row, column). */
  type Point = (int, int)

  /** One region object. */
  type Obj = set<Point>

  /** A Halcon region tuple. */
  datatype HRegion = HRegion(objs: seq<Obj>)

  /** The empty tuple, as held by a default-constructed `HRegion()`. */
  const NoRegion := HRegion([])

  /** Every pixel of every object of a tuple. */
  function Cover(objs: seq<Obj>): (c: set<Point>)
    ensures forall i, p :: 0 <= i < |objs| && p in objs[i] ==> p in c
    ensures forall p :: p in c ==> exists i :: 0 <= i < |objs| && p in objs[i]
  {
    set i, p | 0 <= i < |objs| && p in objs[i] :: p
  }

  /** A one-object tuple covers exactly that object. */
  lemma CoverSingleton(o: Obj)
    ensures Cover([o]) == o
  {
    forall p | p in o ensures p in Cover([o]) {
      assert p in [o][0];
    }
  }

  /** Structuring element of a morphology operator. */
  datatype Element = Circle(radius: real) | Rectangle(width: int, height: int)

  datatype MorphOp = Opening | Closing | Dilation | Erosion

  /** A Halcon call, with the arguments that decide whether it throws. */
  datatype Call =
    | ThresholdCall(image: Mat, lo: real, hi: real)
    | ConnectionCall(region: HRegion)
    | MorphCall(op: MorphOp, element: Element, region: HRegion)
    | Union1Call(region: HRegion)
    | Union2Call(left: HRegion, right: HRegion)
    | FillUpCall(region: HRegion)
    | ShapeTransCall(region: HRegion, kind: string)
    | SelectShapeCall(region: HRegion, feature: string, lo: real, hi: real)
    | AreaCall(region: HRegion)
    | RegionToBinCall(region: HRegion, width: int, height: int)
    | PolygonCall(rows: seq<real>, cols: seq<real>)
    | IntersectionCall(obj: Obj, polygon: Obj)
    | MeasureCall(obj: Obj)

  /** The foreign part of Halcon.
      `connection` splits a tuple into connected components, `morph` applies a
      morphology operator, `fillUp` and `shapeTrans` are FillUp and ShapeTrans,
      `feature(name, o)` is the shape feature `name` of object `o` as used by
      SelectShape, `polygon(rows, cols)` is GenRegionPolygon, `center`,
      `circularity` and `rectangle` are AreaCenter's centre (row, column),
      Circularity, and SmallestRectangle1's (row1, column1, row2, column2). */
  datatype HalconLib = HalconLib(
    fails: Call -> bool,
    connection: HRegion -> HRegion,
    morph: (MorphOp, Element, HRegion) -> HRegion,
    fillUp: HRegion -> HRegion,
    shapeTrans: (HRegion, string) -> HRegion,
    feature: (string, Obj) -> real,
    polygon: (seq<real>, seq<real>) -> Obj,
    center: Obj -> (real, real),
    circularity: Obj -> real,
    rectangle: Obj -> (int, int, int, int))

  /** A call that throws when `lib` says so and otherwise yields `v`. */
  function Guarded<T>(lib: HalconLib, c: Call, v: T): (r: Result<T>)
    ensures r.Failure? <==> lib.fails(c)
    ensures r.Ok? ==> r.value == v
  {
    if lib.fails(c) then Failure else Ok(v)
  }

  /** The pixels of a single-channel image whose value lies in [lo, hi]. */
  function ThresholdSet(m: Mat, lo: real, hi: real): (o: Obj)
    requires m.channels == 1
    ensures forall y, x :: (y, x) in o <==>
      0 <= y < m.rows && 0 <= x < m.cols && lo <= m.px[y][x][0] as real <= hi
  {
    set y, x | 0 <= y < m.rows && 0 <= x < m.cols && lo <= m.px[y][x][0] as real <= hi :: (y, x)
  }

  /** `HImage::Threshold(lo, hi)`: one object holding the selected pixels. */
  function Threshold(lib: HalconLib, m: Mat, lo: real, hi: real): Result<HRegion>
    requires m.channels == 1
  {
    Guarded(lib, ThresholdCall(m, lo, hi), HRegion([ThresholdSet(m, lo, hi)]))
  }

  /** `HRegion::Connection()`. */
  function Connection(lib: HalconLib, r: HRegion): Result<HRegion>
  {
    Guarded(lib, ConnectionCall(r), lib.connection(r))
  }

  /** A morphology operator (`OpeningCircle`, `ErosionRectangle1`, ...). */
  function Morph(lib: HalconLib, op: MorphOp, e: Element, r: HRegion): Result<HRegion>
  {
    Guarded(lib, MorphCall(op, e, r), lib.morph(op, e, r))
  }

  /** `HRegion::Union1()`: the union of all objects, as one object. */
  function Union1(lib: HalconLib, r: HRegion): Result<HRegion>
  {
    Guarded(lib, Union1Call(r), HRegion([Cover(r.objs)]))
  }

  /** `HRegion::Union2(other)`, taken by its pixels: one object holding every
      pixel of either operand. */
  function Union2(lib: HalconLib, a: HRegion, b: HRegion): Result<HRegion>
  {
    Guarded(lib, Union2Call(a, b), HRegion([Cover(a.objs) + Cover(b.objs)]))
  }

  /** `HRegion::FillUp()`. */
  function FillUp(lib: HalconLib, r: HRegion): Result<HRegion>
  {
    Guarded(lib, FillUpCall(r), lib.fillUp(r))
  }

  /** `HRegion::ShapeTrans(kind)`. */
  function ShapeTrans(lib: HalconLib, r: HRegion, kind: string): Result<HRegion>
  {
    Guarded(lib, ShapeTransCall(r, kind), lib.shapeTrans(r, kind))
  }

  /** Whether object `o` passes `SelectShape(feature, "and", lo, hi)`. */
  predicate Meets(lib: HalconLib, o: Obj, feature: string, lo: real, hi: real)
  {
    lo <= lib.feature(feature, o) <= hi
  }

  /** The objects of `objs` that pass the feature test, in their order. */
  function Select(lib: HalconLib, objs: seq<Obj>, feature: string, lo: real, hi: real): (r: seq<Obj>)
    ensures |r| <= |objs|
    ensures forall o :: o in r <==> o in objs && Meets(lib, o, feature, lo, hi)
  {
    if objs == [] then []
    else
      var rest := Select(lib, objs[1..], feature, lo, hi);
      assert forall o :: o in objs <==> o == objs[0] || o in objs[1..];
      if Meets(lib, objs[0], feature, lo, hi) then [objs[0]] + rest else rest
  }

  /** Selection keeps order: selecting from two tuples in a row is selecting
      from each and joining the results, and a single object is kept exactly
      when it passes the test. */
  lemma {:induction false} SelectAppend(lib: HalconLib, a: seq<Obj>, b: seq<Obj>, feature: string, lo: real, hi: real)
    ensures Select(lib, a + b, feature, lo, hi) == Select(lib, a, feature, lo, hi) + Select(lib, b, feature, lo, hi)
    ensures forall o :: Select(lib, [o], feature, lo, hi) == if Meets(lib, o, feature, lo, hi) then [o] else []
    decreases |a|
  {
    if a == [] {
      assert a + b == b;
    } else {
      assert (a + b)[0] == a[0];
      assert (a + b)[1..] == a[1..] + b;
      SelectAppend(lib, a[1..], b, feature, lo, hi);
    }
  }

  /** `HRegion::SelectShape(feature, "and", lo, hi)`. */
  function SelectShape(lib: HalconLib, r: HRegion, feature: string, lo: real, hi: real): Result<HRegion>
  {
    Guarded(lib, SelectShapeCall(r, feature, lo, hi), HRegion(Select(lib, r.objs, feature, lo, hi)))
  }

  /** `HRegion::Area()`: one pixel count per object. */
  function Areas(objs: seq<Obj>): (a: seq<nat>)
    ensures |a| == |objs|
    ensures forall i :: 0 <= i < |objs| ==> a[i] == |objs[i]|
  {
    seq(|objs|, (i: int) requires 0 <= i < |objs| => |objs[i]|)
  }
}
