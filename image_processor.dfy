/** `imageprocessor` (`src/image_processor.cpp`): the algorithm queue, run
    on one region between a single raster-to-region conversion and a single
    conversion back, and the RGB and HSV colour filters. */
module ImageProcessor {
  import opened Wrappers
  import opened Raster
  import opened Halcon
  import opened ImageUtils
  import opened AlgorithmSteps
  import opened HalconAlgorithm

  /** Some step of the queue is enabled and of the Halcon kind. */
  predicate AnyRuns(queue: seq<AlgorithmStep>)
  {
    exists i :: 0 <= i < |queue| && Runs(queue[i])
  }

  /** The gray input of the queue: BGR2GRAY of a colour raster, a
      single-channel raster as it is. */
  function ToGray(cv: CvLib, m: Mat): (g: Mat)
    requires m.channels == 1 || m.channels == 3
    ensures SameSize(g, m) && g.channels == 1
    ensures m.channels == 1 ==> g == m
  {
    if m.channels == 3 then BgrToGray(cv, m) else m
  }

  /** The queue folded over a region in queue order: steps that do not run
      are skipped, and the first throwing step fails the whole fold. */
  function Fold(lib: HalconLib, conv: VariantConv, region: HRegion, queue: seq<AlgorithmStep>): Result<HRegion>
    decreases |queue|
  {
    if queue == [] then Ok(region)
    else
      match Fold(lib, conv, region, queue[..|queue| - 1])
      case Failure => Failure
      case Ok(current) =>
        var step := queue[|queue| - 1];
        if Runs(step) then Execute(lib, conv, current, step) else Ok(current)
  }

  /** `executeAlgorithmQueue`, as a value. The source raster comes back
      unchanged when it is empty, when no step runs, or when it has neither
      1 nor 3 channels. Otherwise the gray input is converted to a region
      once, every running step is applied to it in order, and the result is
      converted back once; a throw anywhere gives the gray input. */
  function QueueSpec(lib: HalconLib, cv: CvLib, conv: VariantConv, src: Mat, queue: seq<AlgorithmStep>): (r: Mat)
    ensures Empty(src) || !AnyRuns(queue) || !(src.channels == 1 || src.channels == 3) ==> r == src
    ensures !Empty(src) && AnyRuns(queue) && (src.channels == 1 || src.channels == 3) ==>
      SameSize(r, src) && r.channels == 1 && !Empty(r)
  {
    if Empty(src) || !AnyRuns(queue) || !(src.channels == 1 || src.channels == 3) then src
    else
      var gray := ToGray(cv, src);
      match MatToHRegion(lib, gray)
      case Failure => gray
      case Ok(region) =>
        match Fold(lib, conv, region, queue)
        case Failure => gray
        case Ok(final) =>
          var result := HRegionToMat(lib, final, gray.cols, gray.rows);
          if Empty(result) then gray else result
  }

  /** A fold that has failed on a prefix of the queue fails on the whole queue. */
  lemma {:induction false} FoldFailurePersists(lib: HalconLib, conv: VariantConv, region: HRegion,
                                             queue: seq<AlgorithmStep>, n: nat)
    requires n <= |queue|
    requires Fold(lib, conv, region, queue[..n]).Failure?
    ensures Fold(lib, conv, region, queue).Failure?
    decreases |queue|
  {
    if n < |queue| {
      var front := queue[..|queue| - 1];
      assert front[..n] == queue[..n];
      FoldFailurePersists(lib, conv, region, front, n);
    } else {
      assert queue[..n] == queue;
    }
  }

  /** Folding a concatenation folds the second part over the result of the first. */
  lemma {:induction false} FoldAppend(lib: HalconLib, conv: VariantConv, region: HRegion,
                                    q1: seq<AlgorithmStep>, q2: seq<AlgorithmStep>)
    ensures Fold(lib, conv, region, q1 + q2) ==
      match Fold(lib, conv, region, q1)
      case Failure => Failure
      case Ok(mid) => Fold(lib, conv, mid, q2)
    decreases |q2|
  {
    if q2 == [] {
      assert q1 + q2 == q1;
    } else {
      var q2front := q2[..|q2| - 1];
      assert (q1 + q2)[..|q1 + q2| - 1] == q1 + q2front;
      FoldAppend(lib, conv, region, q1, q2front);
    }
  }

  /** The steps of a queue that run, in queue order. */
  function RunningSteps(queue: seq<AlgorithmStep>): (r: seq<AlgorithmStep>)
    ensures |r| <= |queue|
    ensures forall s :: s in r <==> s in queue && Runs(s)
    decreases |queue|
  {
    if queue == [] then []
    else
      var front := RunningSteps(queue[..|queue| - 1]);
      var last := queue[|queue| - 1];
      assert forall s :: s in queue <==> s in queue[..|queue| - 1] || s == last;
      if Runs(last) then front + [last] else front
  }

  /** Filtering keeps queue order: the running steps of two queues in a row
      are those of each, joined. */
  lemma {:induction false} RunningStepsAppend(a: seq<AlgorithmStep>, b: seq<AlgorithmStep>)
    ensures RunningSteps(a + b) == RunningSteps(a) + RunningSteps(b)
    decreases |b|
  {
    if b == [] {
      assert a + b == a;
    } else {
      var front, last := b[..|b| - 1], b[|b| - 1];
      var tail := if Runs(last) then [last] else [];
      assert (a + b)[..|a + b| - 1] == a + front;
      assert (a + b)[|a + b| - 1] == last;
      assert RunningSteps(a + b) == RunningSteps(a + front) + tail;
      assert RunningSteps(b) == RunningSteps(front) + tail;
      RunningStepsAppend(a, front);
    }
  }

  /** A step between two parts of a queue keeps its place among the running
      steps exactly when it runs. */
  lemma RunningStepsKeepsOrder(a: seq<AlgorithmStep>, s: AlgorithmStep, b: seq<AlgorithmStep>)
    ensures RunningSteps(a + [s] + b) == RunningSteps(a) + (if Runs(s) then [s] else []) + RunningSteps(b)
  {
    RunningStepsAppend(a + [s], b);
    RunningStepsAppend(a, [s]);
    assert [s][..0] == [];
  }

  /** Disabled and non-Halcon steps have no effect: folding the queue is
      folding only its running steps. */
  lemma {:induction false} FoldSkipsIdleSteps(lib: HalconLib, conv: VariantConv, region: HRegion, queue: seq<AlgorithmStep>)
    ensures Fold(lib, conv, region, queue) == Fold(lib, conv, region, RunningSteps(queue))
    decreases |queue|
  {
    if queue != [] {
      var front := queue[..|queue| - 1];
      var last := queue[|queue| - 1];
      FoldSkipsIdleSteps(lib, conv, region, front);
      if Runs(last) {
        FoldAppend(lib, conv, region, RunningSteps(front), [last]);
        assert [last][..0] == [];
      }
    }
  }

  /** A throw, whether converting the input or in any step, discards the
      steps already applied and yields the gray input. */
  lemma QueueFailureGivesGray(lib: HalconLib, cv: CvLib, conv: VariantConv, src: Mat, queue: seq<AlgorithmStep>)
    requires !Empty(src) && AnyRuns(queue) && (src.channels == 1 || src.channels == 3)
    requires MatToHRegion(lib, ToGray(cv, src)).Failure? ||
             Fold(lib, conv, MatToHRegion(lib, ToGray(cv, src)).value, queue).Failure?
    ensures QueueSpec(lib, cv, conv, src, queue) == ToGray(cv, src)
  {
  }

  /** Steps that make no Halcon call (all guarded by negative parameters,
      say) leave a region as it is. */
  lemma {:induction false} FoldOfCallFreeSteps(lib: HalconLib, conv: VariantConv, region: HRegion, queue: seq<AlgorithmStep>)
    requires forall i :: 0 <= i < |queue| && Runs(queue[i]) ==> StepCall(conv, region, queue[i]).None?
    ensures Fold(lib, conv, region, queue) == Ok(region)
    decreases |queue|
  {
    if queue != [] {
      FoldOfCallFreeSteps(lib, conv, region, queue[..|queue| - 1]);
    }
  }

  /** A {0, 255} mask run through a queue whose running steps make no Halcon
      call comes back as the mask itself, when the conversions do not throw:
      the conversion in and the conversion out are inverse. */
  lemma {:induction false} QueueOfCallFreeStepsKeepsMask(lib: HalconLib, cv: CvLib, conv: VariantConv, src: Mat, queue: seq<AlgorithmStep>)
    requires !Empty(src) && Binary(src) && AnyRuns(queue)
    requires MatToHRegion(lib, src).Ok?
    requires forall i :: 0 <= i < |queue| && Runs(queue[i]) ==>
      StepCall(conv, MatToHRegion(lib, src).value, queue[i]).None?
    requires !lib.fails(AreaCall(MatToHRegion(lib, src).value))
    requires !lib.fails(RegionToBinCall(MatToHRegion(lib, src).value, src.cols, src.rows))
    ensures QueueSpec(lib, cv, conv, src, queue) == src
  {
    var region := MatToHRegion(lib, src).value;
    FoldOfCallFreeSteps(lib, conv, region, queue);
    MaskRoundTrip(lib, src);
  }

  /** The search for a step that runs, with an early exit at the first. */
  method HasValidStep(queue: seq<AlgorithmStep>) returns (found: bool)
    ensures found == AnyRuns(queue)
  {
    found := false;
    var j := 0;
    while j < |queue|
      invariant 0 <= j <= |queue|
      invariant forall i :: 0 <= i < j ==> !Runs(queue[i])
    {
      if queue[j].enabled && queue[j].kind == HalconKind {
        assert Runs(queue[j]);
        found := true;
        return;
      }
      j := j + 1;
    }
  }

  /** The step loop of `executeAlgorithmQueue`: disabled and non-Halcon
      steps are skipped, every other step is applied to the current region,
      and the first throw ends the loop. */
  method ApplyQueue(lib: HalconLib, conv: VariantConv, region: HRegion, queue: seq<AlgorithmStep>)
    returns (r: Result<HRegion>)
    ensures r == Fold(lib, conv, region, queue)
  {
    var current := region;
    var k := 0;
    while k < |queue|
      invariant 0 <= k <= |queue|
      invariant Fold(lib, conv, region, queue[..k]) == Ok(current)
    {
      var step := queue[k];
      assert queue[..k + 1][..k] == queue[..k];
      if !step.enabled {
        k := k + 1;
        continue;
      }
      if step.kind != HalconKind {
        k := k + 1;
        continue;
      }
      var next := Execute(lib, conv, current, step);
      if next.Failure? {
        FoldFailurePersists(lib, conv, region, queue, k + 1);
        return Failure;
      }
      current := next.value;
      k := k + 1;
    }
    assert queue[..|queue|] == queue;
    return Ok(current);
  }

  /** `imageprocessor::executeAlgorithmQueue`, following the source: look
      for a running step, pick the gray input, convert it to a region, apply
      the running steps one after another, convert back. */
  method ExecuteAlgorithmQueue(lib: HalconLib, cv: CvLib, conv: VariantConv, src: Mat, queue: seq<AlgorithmStep>)
    returns (out: Mat)
    ensures out == QueueSpec(lib, cv, conv, src, queue)
  {
    if Empty(src) {
      return src;
    }
    var hasValidStep := HasValidStep(queue);
    if !hasValidStep {
      return src;
    }
    var gray: Mat;
    if src.channels == 3 {
      gray := BgrToGray(cv, src);
    } else if src.channels == 1 {
      gray := src;
    } else {
      return src;
    }
    var converted := MatToHRegion(lib, gray);
    if converted.Failure? {
      return gray;
    }
    var applied := ApplyQueue(lib, conv, converted.value, queue);
    if applied.Failure? {
      return gray;
    }
    var result := HRegionToMat(lib, applied.value, gray.cols, gray.rows);
    if Empty(result) {
      return gray;
    }
    return result;
  }

  /** `std::clamp(v, lo, hi)`. */
  function Clamp(v: int, lo: int, hi: int): (c: int)
    requires lo <= hi
    ensures lo <= c <= hi
    ensures lo <= v <= hi ==> c == v
    ensures v < lo ==> c == lo
    ensures v > hi ==> c == hi
  {
    if v < lo then lo else if v > hi then hi else v
  }

  /** The clamping of one range: the low end into [0, top], then the high
      end into [low, top]. */
  function ClampRange(low: int, high: int, top: nat): (r: (int, int))
    ensures 0 <= r.0 <= r.1 <= top
    ensures 0 <= low <= high <= top ==> r == (low, high)
  {
    var lo := Clamp(low, 0, top);
    (lo, Clamp(high, lo, top))
  }

  /** The `inRange` bounds of `filterRGB`, in (B, G, R) channel order. */
  function RgbBounds(rLow: int, rHigh: int, gLow: int, gHigh: int, bLow: int, bHigh: int): (b: Bounds3)
    ensures 0 <= b.lo0 <= b.hi0 <= 255 && 0 <= b.lo1 <= b.hi1 <= 255 && 0 <= b.lo2 <= b.hi2 <= 255
    ensures (b.lo0, b.hi0) == ClampRange(bLow, bHigh, 255)
    ensures (b.lo1, b.hi1) == ClampRange(gLow, gHigh, 255)
    ensures (b.lo2, b.hi2) == ClampRange(rLow, rHigh, 255)
  {
    var (bl, bh) := ClampRange(bLow, bHigh, 255);
    var (gl, gh) := ClampRange(gLow, gHigh, 255);
    var (rl, rh) := ClampRange(rLow, rHigh, 255);
    Bounds3(bl, bh, gl, gh, rl, rh)
  }

  /** The `inRange` bounds of `filterHSV`: hue within [0, 179], saturation
      and value within [0, 255]. */
  function HsvBounds(hLow: int, hHigh: int, sLow: int, sHigh: int, vLow: int, vHigh: int): (b: Bounds3)
    ensures 0 <= b.lo0 <= b.hi0 <= 179 && 0 <= b.lo1 <= b.hi1 <= 255 && 0 <= b.lo2 <= b.hi2 <= 255
    ensures (b.lo0, b.hi0) == ClampRange(hLow, hHigh, 179)
    ensures (b.lo1, b.hi1) == ClampRange(sLow, sHigh, 255)
    ensures (b.lo2, b.hi2) == ClampRange(vLow, vHigh, 255)
  {
    var (hl, hh) := ClampRange(hLow, hHigh, 179);
    var (sl, sh) := ClampRange(sLow, sHigh, 255);
    var (vl, vh) := ClampRange(vLow, vHigh, 255);
    Bounds3(hl, hh, sl, sh, vl, vh)
  }

  /** Whether a colour filter accepts its input: non-empty, 1 or 3 channels. */
  predicate Filterable(src: Mat)
  {
    !Empty(src) && (src.channels == 1 || src.channels == 3)
  }

  /** `filterRGB`: the empty raster for an empty input or one with neither 1
      nor 3 channels; otherwise a mask of the input's size, 255 where the
      (gray promoted to BGR) pixel lies within the clamped bounds, 0 elsewhere. */
  function FilterRGB(src: Mat, rLow: int, rHigh: int, gLow: int, gHigh: int, bLow: int, bHigh: int): (mask: Mat)
    ensures !Filterable(src) ==> mask == EmptyMat
    ensures Filterable(src) ==> SameSize(mask, src) && mask.channels == 1 && Binary(mask)
  {
    if !Filterable(src) then EmptyMat
    else
      var bgr := if src.channels == 1 then GrayToBgr(src) else src;
      InRange(bgr, RgbBounds(rLow, rHigh, gLow, gHigh, bLow, bHigh))
  }

  /** `filterHSV`: as `filterRGB`, on the HSV conversion of the input (a gray
      input is promoted to BGR first) with the HSV bounds. */
  function FilterHSV(cv: CvLib, src: Mat, hLow: int, hHigh: int, sLow: int, sHigh: int, vLow: int, vHigh: int): (mask: Mat)
    ensures !Filterable(src) ==> mask == EmptyMat
    ensures Filterable(src) ==> SameSize(mask, src) && mask.channels == 1 && Binary(mask)
  {
    if !Filterable(src) then EmptyMat
    else
      var hsv := if src.channels == 3 then BgrToHsv(cv, src) else BgrToHsv(cv, GrayToBgr(src));
      InRange(hsv, HsvBounds(hLow, hHigh, sLow, sHigh, vLow, vHigh))
  }

  /** On a colour input, an RGB-filter pixel is 255 exactly when each of
      its B, G and R bytes lies within the clamped range of that channel. */
  lemma FilterRGBColour(src: Mat, rLow: int, rHigh: int, gLow: int, gHigh: int, bLow: int, bHigh: int, y: int, x: int)
    requires !Empty(src) && src.channels == 3 && 0 <= y < src.rows && 0 <= x < src.cols
    ensures var p := src.px[y][x];
      var (bl, bh) := ClampRange(bLow, bHigh, 255);
      var (gl, gh) := ClampRange(gLow, gHigh, 255);
      var (rl, rh) := ClampRange(rLow, rHigh, 255);
      FilterRGB(src, rLow, rHigh, gLow, gHigh, bLow, bHigh).px[y][x][0] == 255 <==>
        bl <= p[0] <= bh && gl <= p[1] <= gh && rl <= p[2] <= rh
  {
  }

  /** On a gray input, an RGB-filter pixel is 255 exactly when its gray
      value lies within all three clamped ranges. */
  lemma FilterRGBGray(src: Mat, rLow: int, rHigh: int, gLow: int, gHigh: int, bLow: int, bHigh: int, y: int, x: int)
    requires !Empty(src) && src.channels == 1 && 0 <= y < src.rows && 0 <= x < src.cols
    ensures var v := src.px[y][x][0];
      var (bl, bh) := ClampRange(bLow, bHigh, 255);
      var (gl, gh) := ClampRange(gLow, gHigh, 255);
      var (rl, rh) := ClampRange(rLow, rHigh, 255);
      FilterRGB(src, rLow, rHigh, gLow, gHigh, bLow, bHigh).px[y][x][0] == 255 <==>
        bl <= v <= bh && gl <= v <= gh && rl <= v <= rh
  {
  }

  /** An HSV-filter pixel is 255 exactly when the pixel's (H, S, V) lies
      within the clamped hue, saturation and value ranges. */
  lemma FilterHSVPixel(cv: CvLib, src: Mat, hLow: int, hHigh: int, sLow: int, sHigh: int, vLow: int, vHigh: int, y: int, x: int)
    requires !Empty(src) && src.channels == 3 && 0 <= y < src.rows && 0 <= x < src.cols
    ensures var p := src.px[y][x];
      var (h, s, v) := cv.hsv(p[0], p[1], p[2]);
      var (hl, hh) := ClampRange(hLow, hHigh, 179);
      var (sl, sh) := ClampRange(sLow, sHigh, 255);
      var (vl, vh) := ClampRange(vLow, vHigh, 255);
      FilterHSV(cv, src, hLow, hHigh, sLow, sHigh, vLow, vHigh).px[y][x][0] == 255 <==>
        hl <= h <= hh && sl <= s <= sh && vl <= v <= vh
  {
  }
}
