/** `HalconAlgorithm` (`src/halcon_algorithm.cpp`): the dispatch of one queue
    step to a Halcon region operator, the guarded area selection, and the
    measurement of the components that meet a polygon. */
module HalconAlgorithm {
  import opened Wrappers
  import opened Raster
  import opened Halcon
  import opened ImageUtils
  import opened AlgorithmSteps
  import opened PipelineTypes

  /** The operator tag of a step: `params["HalconAlgoType"].toInt()`, cast
      to the enumeration. A missing tag reads as 0, `OpeningCircle`. */
  function AlgoTypeOfStep(conv: VariantConv, step: AlgorithmStep): Option<HalconAlgoType>
  {
    AlgoTypeOf(ToInt(conv, Get(step.params, "HalconAlgoType")))
  }

  /** The radius of a circular operator, 3.5 when absent. */
  function Radius(conv: VariantConv, step: AlgorithmStep): real
  {
    ToReal(conv, ValueOr(step.params, "radius", RealV(3.5)))
  }

  /** The width and height of a rectangular operator, 5 when absent. */
  function RectSize(conv: VariantConv, step: AlgorithmStep): (int, int)
  {
    (ToInt(conv, ValueOr(step.params, "width", IntV(5))), ToInt(conv, ValueOr(step.params, "height", IntV(5))))
  }

  /** The kind of shape transformation, "convex" when absent. */
  function TransKind(conv: VariantConv, step: AlgorithmStep): string
  {
    ToText(conv, ValueOr(step.params, "shapeType", TextV("convex")))
  }

  /** The morphology operator and element shape of an enumerator, if it names one:
      the boolean is true for a circle, false for a rectangle. */
  function MorphOf(t: HalconAlgoType): Option<(MorphOp, bool)>
  {
    match t
    case OpeningCircle => Some((Opening, true))
    case OpeningRect => Some((Opening, false))
    case ClosingCircle => Some((Closing, true))
    case ClosingRect => Some((Closing, false))
    case DilationCircle => Some((Dilation, true))
    case DilationRect => Some((Dilation, false))
    case ErosionCircle => Some((Erosion, true))
    case ErosionRect => Some((Erosion, false))
    case _ => None
  }

  /** `openingCircle`, `closeingCircle`, `dilateCircle`, `erodeCircle`:
      a negative radius leaves the region as it is. */
  function CircleOperator(lib: HalconLib, op: MorphOp, region: HRegion, radius: real): (r: Result<HRegion>)
    ensures radius < 0.0 ==> r == Ok(region)
    ensures radius >= 0.0 ==> r == Morph(lib, op, Circle(radius), region)
  {
    if radius < 0.0 then Ok(region) else Morph(lib, op, Circle(radius), region)
  }

  /** `openingRectangle`, `closeingRectangle`, `dilateRectangle`,
      `erodeRectangle`: a negative width or height leaves the region as it is. */
  function RectOperator(lib: HalconLib, op: MorphOp, region: HRegion, width: int, height: int): (r: Result<HRegion>)
    ensures width < 0 || height < 0 ==> r == Ok(region)
    ensures width >= 0 && height >= 0 ==> r == Morph(lib, op, Rectangle(width, height), region)
  {
    if width < 0 || height < 0 then Ok(region) else Morph(lib, op, Rectangle(width, height), region)
  }

  /** The Halcon call one step makes on `region`, or `None` when it makes
      none: an unknown tag, `SelectShapeArea` (which `execute` does not
      dispatch) and a guarded negative parameter. */
  function StepCall(conv: VariantConv, region: HRegion, step: AlgorithmStep): Option<Call>
  {
    match AlgoTypeOfStep(conv, step)
    case None => None
    case Some(t) =>
      match MorphOf(t)
      case Some((op, true)) =>
        var radius := Radius(conv, step);
        if radius < 0.0 then None else Some(MorphCall(op, Circle(radius), region))
      case Some((op, false)) =>
        var (w, h) := RectSize(conv, step);
        if w < 0 || h < 0 then None else Some(MorphCall(op, Rectangle(w, h), region))
      case None =>
        match t
        case Union => Some(Union1Call(region))
        case Connection => Some(ConnectionCall(region))
        case FillUp => Some(FillUpCall(region))
        case ShapeTrans => Some(ShapeTransCall(region, TransKind(conv, step)))
        case _ => None
  }

  /** `HalconAlgorithm::execute`: the step's operator applied to `region`.
      A step that makes no Halcon call returns the region unchanged, and the
      step throws exactly when the call it makes throws. */
  function Execute(lib: HalconLib, conv: VariantConv, region: HRegion, step: AlgorithmStep): (r: Result<HRegion>)
    ensures StepCall(conv, region, step).None? ==> r == Ok(region)
    ensures r.Failure? <==> StepCall(conv, region, step).Some? && lib.fails(StepCall(conv, region, step).value)
  {
    match AlgoTypeOfStep(conv, step)
    case None => Ok(region)
    case Some(t) =>
      match t
      case OpeningCircle => CircleOperator(lib, Opening, region, Radius(conv, step))
      case OpeningRect => RectOperator(lib, Opening, region, RectSize(conv, step).0, RectSize(conv, step).1)
      case ClosingCircle => CircleOperator(lib, Closing, region, Radius(conv, step))
      case ClosingRect => RectOperator(lib, Closing, region, RectSize(conv, step).0, RectSize(conv, step).1)
      case DilationCircle => CircleOperator(lib, Dilation, region, Radius(conv, step))
      case DilationRect => RectOperator(lib, Dilation, region, RectSize(conv, step).0, RectSize(conv, step).1)
      case ErosionCircle => CircleOperator(lib, Erosion, region, Radius(conv, step))
      case ErosionRect => RectOperator(lib, Erosion, region, RectSize(conv, step).0, RectSize(conv, step).1)
      case Union => Union1(lib, region)
      case Connection => Halcon.Connection(lib, region)
      case FillUp => Halcon.FillUp(lib, region)
      case ShapeTrans => Halcon.ShapeTrans(lib, region, TransKind(conv, step))
      case SelectShapeArea => Ok(region)
  }

  /** A tag outside the enumeration, and the `SelectShapeArea` tag, leave the
      region unchanged. */
  lemma ExecuteUndispatched(lib: HalconLib, conv: VariantConv, region: HRegion, step: AlgorithmStep)
    requires var n := ToInt(conv, Get(step.params, "HalconAlgoType")); n < 0 || n >= 12
    ensures Execute(lib, conv, region, step) == Ok(region)
  {
  }

  /** A step without parameters is an opening with a circle of radius 3.5:
      the missing tag reads as 0 and the missing radius as 3.5. */
  lemma ExecuteDefaults(lib: HalconLib, conv: VariantConv, region: HRegion, step: AlgorithmStep)
    requires step.params == map[]
    ensures Execute(lib, conv, region, step) == Morph(lib, Opening, Circle(3.5), region)
  {
  }

  /** The defaults of the other parameters: rectangles are 5 x 5 and the
      shape transformation is "convex". */
  lemma ParameterDefaults(conv: VariantConv, step: AlgorithmStep)
    requires "width" !in step.params && "height" !in step.params && "shapeType" !in step.params
    ensures RectSize(conv, step) == (5, 5) && TransKind(conv, step) == "convex"
  {
  }

  /** Every morphology operator is the identity under a negative radius, or
      a negative width or height, whatever Halcon would do. */
  lemma {:induction false} NegativeParameterIsIdentity(lib: HalconLib, conv: VariantConv, region: HRegion, step: AlgorithmStep)
    requires AlgoTypeOfStep(conv, step).Some? && MorphOf(AlgoTypeOfStep(conv, step).value).Some?
    requires MorphOf(AlgoTypeOfStep(conv, step).value).value.1 ==> Radius(conv, step) < 0.0
    requires !MorphOf(AlgoTypeOfStep(conv, step).value).value.1 ==> RectSize(conv, step).0 < 0 || RectSize(conv, step).1 < 0
    ensures Execute(lib, conv, region, step) == Ok(region)
  {
    assert StepCall(conv, region, step).None?;
  }

  /** Union, Connection, FillUp and ShapeTrans always call Halcon, with no guard;
      Union yields one object covering every pixel of the region. */
  lemma UnguardedOperators(lib: HalconLib, conv: VariantConv, region: HRegion, step: AlgorithmStep)
    requires AlgoTypeOfStep(conv, step).Some?
    requires AlgoTypeOfStep(conv, step).value in {Union, Connection, FillUp, ShapeTrans}
    ensures StepCall(conv, region, step).Some?
    ensures AlgoTypeOfStep(conv, step).value == Union && !lib.fails(Union1Call(region)) ==>
      Execute(lib, conv, region, step) == Ok(HRegion([Cover(region.objs)]))
  {
  }

  /** `selectShapeArea`: an invalid range (negative minimum, or maximum below
      minimum) returns the input; so does a throwing Connection or
      SelectShape. Otherwise the components whose area lies in the range. */
  function SelectShapeAreaOf(lib: HalconLib, region: HRegion, minArea: real, maxArea: real): (r: HRegion)
    ensures minArea < 0.0 || maxArea < minArea ==> r == region
    ensures r == region ||
      forall o :: o in r.objs ==> o in lib.connection(region).objs && Meets(lib, o, "area", minArea, maxArea)
  {
    if minArea < 0.0 || maxArea < minArea then region
    else
      match Halcon.Connection(lib, region)
      case Failure => region
      case Ok(connected) =>
        match SelectShape(lib, connected, "area", minArea, maxArea)
        case Failure => region
        case Ok(selected) => selected
  }

  /** With a valid range and no throwing call, exactly the components of
      the region whose area is in range survive (`Halcon.SelectAppend`
      gives their order). */
  lemma SelectShapeAreaKeeps(lib: HalconLib, region: HRegion, minArea: real, maxArea: real)
    requires 0.0 <= minArea <= maxArea
    requires !lib.fails(ConnectionCall(region))
    requires !lib.fails(SelectShapeCall(lib.connection(region), "area", minArea, maxArea))
    ensures forall o :: o in SelectShapeAreaOf(lib, region, minArea, maxArea).objs <==>
      o in lib.connection(region).objs && Meets(lib, o, "area", minArea, maxArea)
  {
  }

  /** A polygon vertex (`QPointF`). */
  datatype PointF = PointF(x: real, y: real)

  /** The row coordinates (the y values) of a polygon. */
  function Rows(polygon: seq<PointF>): (rows: seq<real>)
    ensures |rows| == |polygon| && forall i :: 0 <= i < |polygon| ==> rows[i] == polygon[i].y
  {
    seq(|polygon|, (i: int) requires 0 <= i < |polygon| => polygon[i].y)
  }

  /** The column coordinates (the x values) of a polygon. */
  function Cols(polygon: seq<PointF>): (cols: seq<real>)
    ensures |cols| == |polygon| && forall i :: 0 <= i < |polygon| ==> cols[i] == polygon[i].x
  {
    seq(|polygon|, (i: int) requires 0 <= i < |polygon| => polygon[i].x)
  }

  /** The features of component `i` (numbered from 1): its area, centre
      (column as x, row as y), circularity, and the width and height of its
      smallest enclosing axis-parallel rectangle. */
  function Measure(lib: HalconLib, o: Obj, i: int): (f: RegionFeature)
    ensures f.index == i && f.area == |o| as real && f.bbox == NullRect
    ensures f.width == (lib.rectangle(o).3 - lib.rectangle(o).1) as real
    ensures f.height == (lib.rectangle(o).2 - lib.rectangle(o).0) as real
  {
    var (row, col) := lib.center(o);
    var (row1, col1, row2, col2) := lib.rectangle(o);
    RegionFeature(i, |o| as real, lib.circularity(o), col, row, (col2 - col1) as real, (row2 - row1) as real, NullRect)
  }

  /** The state of the component scan: the features gathered, and whether a
      Halcon call has thrown. */
  datatype Scan = Scan(features: seq<RegionFeature>, failed: bool)

  /** The scan over the first `n` components: a component is measured when
      its intersection with the polygon has positive area; the first throw
      stops the scan with what was gathered. */
  function ScanObjects(lib: HalconLib, objs: seq<Obj>, poly: Obj, n: nat): Scan
    requires n <= |objs|
  {
    if n == 0 then Scan([], false)
    else
      var s := ScanObjects(lib, objs, poly, n - 1);
      var o := objs[n - 1];
      if s.failed then s
      else if lib.fails(IntersectionCall(o, poly)) then Scan(s.features, true)
      else if |o * poly| == 0 then s
      else if lib.fails(MeasureCall(o)) then Scan(s.features, true)
      else Scan(s.features + [Measure(lib, o, n)], false)
  }

  /** `analyzeRegionsInPolygon`, as a value: nothing for fewer than three
      vertices or an empty image, nothing when building the polygon, the
      region or its components throws, else the scan of all components. */
  function AnalyzeSpec(lib: HalconLib, polygon: seq<PointF>, img: Mat): seq<RegionFeature>
    requires !Empty(img) ==> img.channels == 1
  {
    if |polygon| < 3 || Empty(img) then []
    else if lib.fails(PolygonCall(Rows(polygon), Cols(polygon))) then []
    else
      match MatToHRegion(lib, img)
      case Failure => []
      case Ok(all) =>
        match Halcon.Connection(lib, all)
        case Failure => []
        case Ok(connected) =>
          ScanObjects(lib, connected.objs, lib.polygon(Rows(polygon), Cols(polygon)), |connected.objs|).features
  }

  /** Once a scan has failed, scanning further components changes nothing. */
  lemma {:induction false} ScanStaysFailed(lib: HalconLib, objs: seq<Obj>, poly: Obj, a: nat, b: nat)
    requires a <= b <= |objs|
    requires ScanObjects(lib, objs, poly, a).failed
    ensures ScanObjects(lib, objs, poly, b) == ScanObjects(lib, objs, poly, a)
    decreases b
  {
    if a < b {
      ScanStaysFailed(lib, objs, poly, a, b - 1);
    }
  }

  /** Features in ascending component order, each with `index = i` for a
      component `i <= n` that meets the polygon in a positive area, and
      measured from that component. */
  predicate Sound(lib: HalconLib, objs: seq<Obj>, poly: Obj, fs: seq<RegionFeature>, n: nat)
    requires n <= |objs|
  {
    (forall j :: 0 <= j < |fs| ==>
      1 <= fs[j].index <= n && |objs[fs[j].index - 1] * poly| > 0 &&
      fs[j] == Measure(lib, objs[fs[j].index - 1], fs[j].index)) &&
    (forall j, k :: 0 <= j < k < |fs| ==> fs[j].index < fs[k].index)
  }

  /** What the scan gathers is sound. */
  lemma {:induction false} ScanSound(lib: HalconLib, objs: seq<Obj>, poly: Obj, n: nat)
    requires n <= |objs|
    ensures Sound(lib, objs, poly, ScanObjects(lib, objs, poly, n).features, n)
  {
    if n > 0 {
      ScanSound(lib, objs, poly, n - 1);
      var s := ScanObjects(lib, objs, poly, n - 1).features;
      var fs := ScanObjects(lib, objs, poly, n).features;
      if fs != s {
        assert fs == s + [Measure(lib, objs[n - 1], n)];
        assert forall j :: 0 <= j < |s| ==> fs[j] == s[j] && s[j].index <= n - 1;
      }
    }
  }

  /** Without a throw, every component that meets the polygon in a positive
      area is reported. */
  lemma {:induction false} ScanComplete(lib: HalconLib, objs: seq<Obj>, poly: Obj, n: nat, i: int)
    requires n <= |objs| && 1 <= i <= n
    requires !ScanObjects(lib, objs, poly, n).failed
    requires |objs[i - 1] * poly| > 0
    ensures (exists j :: 0 <= j < |ScanObjects(lib, objs, poly, n).features| &&
               ScanObjects(lib, objs, poly, n).features[j].index == i)
  {
    var s := ScanObjects(lib, objs, poly, n - 1);
    assert !s.failed;
    if i == n {
      var fs := ScanObjects(lib, objs, poly, n).features;
      assert fs[|fs| - 1].index == i;
    } else {
      ScanComplete(lib, objs, poly, n - 1, i);
      var j :| 0 <= j < |s.features| && s.features[j].index == i;
      assert ScanObjects(lib, objs, poly, n).features[j] == s.features[j];
    }
  }

  /** Features are only ever appended: the features after `a` components are
      a prefix of those after `b`, so a throw returns what was gathered. */
  lemma {:induction false} ScanPrefix(lib: HalconLib, objs: seq<Obj>, poly: Obj, a: nat, b: nat)
    requires a <= b <= |objs|
    ensures ScanObjects(lib, objs, poly, a).features <= ScanObjects(lib, objs, poly, b).features
    decreases b
  {
    if a < b {
      ScanPrefix(lib, objs, poly, a, b - 1);
    }
  }

  /** `HalconAlgorithm::analyzeRegionsInPolygon`, following the source's
      loops: collect the vertex coordinates, build the polygon region,
      split the image's region into components, then visit components 1 to
      n and measure those that meet the polygon. A throw ends the loop and
      returns the features gathered so far. */
  method AnalyzeRegionsInPolygon(lib: HalconLib, polygon: seq<PointF>, img: Mat) returns (results: seq<RegionFeature>)
    requires !Empty(img) ==> img.channels == 1
    ensures results == AnalyzeSpec(lib, polygon, img)
    ensures |polygon| < 3 || Empty(img) ==> results == []
  {
    results := [];
    if |polygon| < 3 {
      return;
    }
    if Empty(img) {
      return;
    }
    var rows, cols := [], [];
    var k := 0;
    while k < |polygon|
      invariant 0 <= k <= |polygon|
      invariant rows == Rows(polygon)[..k] && cols == Cols(polygon)[..k]
    {
      rows := rows + [polygon[k].y];
      cols := cols + [polygon[k].x];
      k := k + 1;
    }
    assert rows == Rows(polygon) && cols == Cols(polygon);
    if lib.fails(PolygonCall(rows, cols)) {
      return;
    }
    var poly := lib.polygon(rows, cols);
    var all := MatToHRegion(lib, img);
    if all.Failure? {
      return;
    }
    var connected := Halcon.Connection(lib, all.value);
    if connected.Failure? {
      return;
    }
    var objs := connected.value.objs;
    var total := |objs|;
    if total == 0 {
      return;
    }
    var i := 1;
    while i <= total
      invariant 1 <= i <= total + 1
      invariant ScanObjects(lib, objs, poly, i - 1) == Scan(results, false)
    {
      var o := objs[i - 1];
      if lib.fails(IntersectionCall(o, poly)) {
        ScanStaysFailed(lib, objs, poly, i, total);
        return;
      }
      if |o * poly| == 0 {
        i := i + 1;
        continue;
      }
      if lib.fails(MeasureCall(o)) {
        ScanStaysFailed(lib, objs, poly, i, total);
        return;
      }
      results := results + [Measure(lib, o, i)];
      i := i + 1;
    }
  }
}
