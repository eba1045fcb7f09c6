/** The pipeline steps of `pipeline_steps.h`. Each step is given twice: as a
    function from the context value before the step to the value after it,
    which the lemmas reason about, and as a method that updates a
    `PipelineContext` in place the way the step's `run` does, proved to
    agree with the function. */
module PipelineSteps {
  import opened Wrappers
  import opened Raster
  import opened Halcon
  import opened ImageUtils
  import opened ShapeFilterTypes
  import opened AlgorithmSteps
  import opened ImageProcessor
  import opened PipelineTypes

  /** The foreign parts the steps call: OpenCV numerics, Halcon, the
      `QVariant` conversions and `QString::arg(double)`. */
  datatype Env = Env(cv: CvLib, lib: HalconLib, conv: VariantConv, fmt: real -> string)

  // ---------------------------------------------------------------- texts

  function DigitChar(d: nat): char
    requires d < 10
  {
    "0123456789"[d]
  }

  /** The decimal digits of a natural number. */
  function Digits(n: nat): (s: string)
    ensures |s| > 0 && forall i :: 0 <= i < |s| ==> '0' <= s[i] <= '9'
    decreases n
  {
    if n < 10 then [DigitChar(n)] else Digits(n / 10) + [DigitChar(n % 10)]
  }

  /** `QString::arg(int)`: an optional minus sign and the decimal digits. */
  function IntText(n: int): (s: string)
    ensures |s| > 0
  {
    if n < 0 then "-" + Digits(-n) else Digits(n)
  }

  /** The reason set by the gray filter: "灰度过滤: 范围[low,high]". */
  function GrayReason(low: int, high: int): string
  {
    "灰度过滤: 范围[" + IntText(low) + "," + IntText(high) + "]"
  }

  /** The reason set by the algorithm queue: "算法队列执行完成 (n个步骤)". */
  function QueueReason(n: int): string
  {
    "算法队列执行完成 (" + IntText(n) + "个步骤)"
  }

  /** The reason set by the shape filter on success. */
  function ShapeReason(filter: ShapeFilter, fmt: real -> string, after: int, before: int): string
  {
    "形状筛选: " + filter.ToString(fmt) + ", 保留 " + IntText(after) + "/" + IntText(before) + " 个区域"
  }

  /** The reason set when the shape filter throws. */
  const ShapeFailureReason: string := "形状筛选失败"

  /** The reason set by the colour filter: "颜色过滤: RGB 模式" or "… HSV 模式". */
  function ColorReason(mode: ColorFilterMode): string
  {
    "颜色过滤: " + (if mode == RgbColorFilter then "RGB" else "HSV") + " 模式"
  }

  // ---------------------------------------------------------- invariant

  /** An artifact is empty, or non-empty with the size of a non-empty source. */
  predicate Fits(a: Mat, src: Mat)
  {
    Empty(a) || (SameSize(a, src) && !Empty(src))
  }

  /** The shape of a context the steps keep: the source is empty or a
      colour raster; every non-empty artifact has its size; the channel image
      and the enhanced image have 1 or 3 channels, the mask and the processed
      image one. Under it no OpenCV call of a step can raise. */
  predicate Wf(c: Ctx)
  {
    (Empty(c.srcBgr) || c.srcBgr.channels == 3) &&
    Fits(c.channelImg, c.srcBgr) && (Empty(c.channelImg) || c.channelImg.channels == 1 || c.channelImg.channels == 3) &&
    Fits(c.enhanced, c.srcBgr) && (Empty(c.enhanced) || c.enhanced.channels == 1 || c.enhanced.channels == 3) &&
    Fits(c.mask, c.srcBgr) && (Empty(c.mask) || c.mask.channels == 1) &&
    Fits(c.processed, c.srcBgr) && (Empty(c.processed) || c.processed.channels == 1)
  }

  // -------------------------------------------------------- colour channel

  /** The channel image for a channel mode: BGR2GRAY for Gray, the source for
      RGB, BGR2HSV for HSV, plane 0, 1 or 2 for B, G or R. `BGR` has no case
      of its own and falls to the default, gray. */
  function ChannelImage(cv: CvLib, ch: Channel, src: Mat): (img: Mat)
    requires src.channels == 3
    ensures SameSize(img, src)
    ensures ch == RGB || ch == HSV ==> img.channels == 3
    ensures ch != RGB && ch != HSV ==> img.channels == 1
  {
    match ch
    case Gray => BgrToGray(cv, src)
    case RGB => src
    case HSV => BgrToHsv(cv, src)
    case B => SplitChannel(src, 0)
    case G => SplitChannel(src, 1)
    case R => SplitChannel(src, 2)
    case BGR => BgrToGray(cv, src)
  }

  /** `StepColorChannel::run`: nothing for an empty source, otherwise only
      the channel image is (re)computed. */
  function ColorChannelStep(cv: CvLib, cfg: Config, c: Ctx): (r: Ctx)
    requires Wf(c)
    ensures Wf(r)
    ensures Empty(c.srcBgr) ==> r == c
    ensures r.(channelImg := c.channelImg) == c
  {
    if Empty(c.srcBgr) then c else c.(channelImg := ChannelImage(cv, cfg.channel, c.srcBgr))
  }

  /** B, G and R select planes 0, 1 and 2 of the source. */
  lemma ChannelPlanes(cv: CvLib, cfg: Config, c: Ctx, y: int, x: int)
    requires Wf(c) && !Empty(c.srcBgr) && 0 <= y < c.srcBgr.rows && 0 <= x < c.srcBgr.cols
    requires cfg.channel in {B, G, R}
    ensures var k := if cfg.channel == B then 0 else if cfg.channel == G then 1 else 2;
      ColorChannelStep(cv, cfg, c).channelImg.px[y][x] == [c.srcBgr.px[y][x][k]]
  {
  }

  // ----------------------------------------------------------- enhancement

  /** `StepEnhance::run`: the enhanced image is written only when both the
      source and the channel image are non-empty; nothing else changes. */
  function EnhanceStep(cv: CvLib, cfg: Config, c: Ctx): (r: Ctx)
    requires Wf(c)
    ensures Wf(r)
    ensures r.(enhanced := c.enhanced) == c
    ensures Empty(c.srcBgr) || Empty(c.channelImg) ==> r == c
    ensures !Empty(c.srcBgr) && !Empty(c.channelImg) ==>
      SameSize(r.enhanced, c.channelImg) && r.enhanced.channels == c.channelImg.channels
  {
    if Empty(c.srcBgr) || Empty(c.channelImg) then c
    else c.(enhanced := AdjustParameter(cv, c.channelImg, cfg.Tone()))
  }

  // ----------------------------------------------------------- gray filter

  /** The gray image of the gray filter and the queue: BGR2GRAY of a colour
      image, any other image as it is. */
  function GrayOf(cv: CvLib, m: Mat): (g: Mat)
    ensures SameSize(g, m)
    ensures m.channels == 3 ==> g.channels == 1
    ensures m.channels != 3 ==> g == m
  {
    if m.channels == 3 then BgrToGray(cv, m) else m
  }

  /** `StepGrayFilter::run`. Disabled: the mask is released. Enhanced image
      empty: nothing changes. Otherwise the mask is the Halcon threshold of
      the gray image over [grayLow, grayHigh], rendered in its frame, and the
      reason records the range; a throwing threshold releases the mask. */
  function GrayFilterStep(lib: HalconLib, cv: CvLib, cfg: Config, c: Ctx): (r: Ctx)
    requires Wf(c)
    ensures Wf(r)
    ensures r.(mask := c.mask, reason := c.reason) == c
    ensures !cfg.enableGrayFilter ==> r == c.(mask := EmptyMat)
    ensures cfg.enableGrayFilter && Empty(c.enhanced) ==> r == c
  {
    if !cfg.enableGrayFilter then c.(mask := EmptyMat)
    else if Empty(c.enhanced) then c
    else
      var gray := GrayOf(cv, c.enhanced);
      match Threshold(lib, gray, cfg.grayLow as real, cfg.grayHigh as real)
      case Failure => c.(mask := EmptyMat)
      case Ok(region) =>
        c.(mask := HRegionToMat(lib, region, gray.cols, gray.rows),
           reason := GrayReason(cfg.grayLow, cfg.grayHigh))
  }

  /** A successful gray filter marks with 0 (inside the region) exactly the
      pixels whose gray value lies in [grayLow, grayHigh], when some pixel
      does and the rendering does not throw. */
  lemma GrayFilterMarksRange(lib: HalconLib, cv: CvLib, cfg: Config, c: Ctx, y: int, x: int)
    requires Wf(c) && cfg.enableGrayFilter && !Empty(c.enhanced)
    requires 0 <= y < c.enhanced.rows && 0 <= x < c.enhanced.cols
    requires var gray := GrayOf(cv, c.enhanced);
      var o := ThresholdSet(gray, cfg.grayLow as real, cfg.grayHigh as real);
      !lib.fails(ThresholdCall(gray, cfg.grayLow as real, cfg.grayHigh as real)) &&
      !lib.fails(AreaCall(HRegion([o]))) &&
      !lib.fails(RegionToBinCall(HRegion([o]), gray.cols, gray.rows)) && o != {}
    ensures GrayFilterStep(lib, cv, cfg, c).mask.px[y][x] == [0] <==>
      cfg.grayLow <= GrayOf(cv, c.enhanced).px[y][x][0] <= cfg.grayHigh
  {
    var gray := GrayOf(cv, c.enhanced);
    var o := ThresholdSet(gray, cfg.grayLow as real, cfg.grayHigh as real);
    HRegionToMatPolarity(lib, HRegion([o]), gray.cols, gray.rows, y, x);
  }

  // ---------------------------------------------------------- colour filter

  /** The colour filter's input: the enhanced image, or the source when
      there is none. */
  function ColorInput(c: Ctx): Mat
  {
    if Empty(c.enhanced) then c.srcBgr else c.enhanced
  }

  /** The colour mask of the configured mode (RGB or HSV). */
  function ColorMask(cv: CvLib, cfg: Config, input: Mat): (m: Mat)
    requires cfg.colorFilterMode != NoColorFilter
    ensures !Filterable(input) ==> m == EmptyMat
    ensures Filterable(input) ==> SameSize(m, input) && m.channels == 1 && Binary(m)
  {
    if cfg.colorFilterMode == RgbColorFilter then
      FilterRGB(input, cfg.rLow, cfg.rHigh, cfg.gLow, cfg.gHigh, cfg.bLow, cfg.bHigh)
    else
      FilterHSV(cv, input, cfg.hLow, cfg.hHigh, cfg.sLow, cfg.sHigh, cfg.vLow, cfg.vHigh)
  }

  /** `StepColorFilter::run`. Disabled or mode None: nothing changes.
      Otherwise the colour mask is merged into the mask by a byte-wise AND,
      or becomes the mask when there is none, and the reason names the mode. */
  function ColorFilterStep(cv: CvLib, cfg: Config, c: Ctx): (r: Ctx)
    requires Wf(c)
    ensures Wf(r)
    ensures r.(mask := c.mask, reason := c.reason) == c
    ensures !cfg.enableColorFilter || cfg.colorFilterMode == NoColorFilter ==> r == c
    ensures cfg.enableColorFilter && cfg.colorFilterMode != NoColorFilter && Empty(c.mask) ==>
      r.mask == ColorMask(cv, cfg, ColorInput(c))
  {
    if !cfg.enableColorFilter || cfg.colorFilterMode == NoColorFilter then c
    else
      var filterMask := ColorMask(cv, cfg, ColorInput(c));
      var merged := if !Empty(c.mask) then BitwiseAnd(c.mask, filterMask) else filterMask;
      c.(mask := merged, reason := ColorReason(cfg.colorFilterMode))
  }

  /** With a mask already present, each mask byte becomes the AND of the old
      byte and the colour-mask byte: a pixel stays 0 ("inside" for the
      regions) wherever either mask is 0, and a 255 colour byte keeps the old. */
  lemma ColorFilterMerges(cv: CvLib, cfg: Config, c: Ctx, y: int, x: int)
    requires Wf(c) && cfg.enableColorFilter && cfg.colorFilterMode != NoColorFilter
    requires !Empty(c.mask) && 0 <= y < c.mask.rows && 0 <= x < c.mask.cols
    ensures var m := ColorMask(cv, cfg, ColorInput(c));
      SameSize(m, c.mask) && m.channels == 1 &&
      ColorFilterStep(cv, cfg, c).mask.px[y][x] == [AndByte(c.mask.px[y][x][0], m.px[y][x][0])]
    ensures var m := ColorMask(cv, cfg, ColorInput(c));
      (c.mask.px[y][x][0] == 0 || m.px[y][x][0] == 0 ==> ColorFilterStep(cv, cfg, c).mask.px[y][x] == [0]) &&
      (m.px[y][x][0] == 255 ==> ColorFilterStep(cv, cfg, c).mask.px[y][x] == c.mask.px[y][x])
  {
  }

  // -------------------------------------------------------- algorithm queue

  /** The queue's input by priority: the mask, else the gray enhanced image,
      else the gray source. */
  function QueueInput(cv: CvLib, c: Ctx): (input: Mat)
    requires Wf(c)
    ensures !Empty(c.mask) ==> input == c.mask
    ensures Empty(c.mask) && !Empty(c.enhanced) ==> input == GrayOf(cv, c.enhanced)
    ensures Empty(c.mask) && Empty(c.enhanced) ==> input == GrayOf(cv, c.srcBgr)
    ensures !Empty(input) ==> input.channels == 1
    ensures Fits(input, c.srcBgr)
  {
    if !Empty(c.mask) then c.mask
    else if !Empty(c.enhanced) then GrayOf(cv, c.enhanced)
    else GrayOf(cv, c.srcBgr)
  }

  /** `StepAlgorithmQueue::run`. An empty queue or an empty input changes
      nothing; otherwise the queue runs on the input, and `processed` and the
      reason are assigned only for a non-empty result. */
  function AlgorithmQueueStep(env: Env, queue: seq<AlgorithmStep>, c: Ctx): (r: Ctx)
    requires Wf(c)
    ensures Wf(r)
    ensures r.(processed := c.processed, reason := c.reason) == c
    ensures queue == [] || Empty(QueueInput(env.cv, c)) ==> r == c
    ensures r.processed == c.processed || r.processed == QueueSpec(env.lib, env.cv, env.conv, QueueInput(env.cv, c), queue)
    ensures queue != [] && !Empty(QueueInput(env.cv, c)) ==>
      r.processed == QueueSpec(env.lib, env.cv, env.conv, QueueInput(env.cv, c), queue) &&
      r.reason == QueueReason(|queue|)
  {
    if queue == [] then c
    else
      var input := QueueInput(env.cv, c);
      if Empty(input) then c
      else
        var result := QueueSpec(env.lib, env.cv, env.conv, input, queue);
        if Empty(result) then c
        else c.(processed := result, reason := QueueReason(|queue|))
  }

  // -------------------------------------------------------- shape filter

  /** Object `o` meets condition `cond` (`SelectShape` with its feature name
      and range). */
  predicate MeetsCondition(lib: HalconLib, o: Obj, cond: FilterCondition)
  {
    Meets(lib, o, FeatureName(cond.feature), cond.minValue, cond.maxValue)
  }

  /** `o` meets every valid condition of the list. */
  predicate MeetsAll(lib: HalconLib, o: Obj, conds: seq<FilterCondition>)
  {
    forall i :: 0 <= i < |conds| && conds[i].IsValid() ==> MeetsCondition(lib, o, conds[i])
  }

  /** `o` meets some valid condition of the list. */
  predicate MeetsSome(lib: HalconLib, o: Obj, conds: seq<FilterCondition>)
  {
    exists i :: 0 <= i < |conds| && conds[i].IsValid() && MeetsCondition(lib, o, conds[i])
  }

  /** The AND filter over the conditions, in list order: each valid
      condition narrows the current tuple; invalid ones are skipped. */
  function FilterAnd(lib: HalconLib, regions: HRegion, conds: seq<FilterCondition>): Result<HRegion>
    decreases |conds|
  {
    if conds == [] then Ok(regions)
    else
      match FilterAnd(lib, regions, conds[..|conds| - 1])
      case Failure => Failure
      case Ok(current) =>
        var cond := conds[|conds| - 1];
        if !cond.IsValid() then Ok(current)
        else SelectShape(lib, current, FeatureName(cond.feature), cond.minValue, cond.maxValue)
  }

  /** The OR filter's state: the union so far, or `None` before the first
      valid condition. */
  function FilterOrState(lib: HalconLib, regions: HRegion, conds: seq<FilterCondition>): Result<Option<HRegion>>
    decreases |conds|
  {
    if conds == [] then Ok(None)
    else
      match FilterOrState(lib, regions, conds[..|conds| - 1])
      case Failure => Failure
      case Ok(acc) =>
        var cond := conds[|conds| - 1];
        if !cond.IsValid() then Ok(acc)
        else
          match SelectShape(lib, regions, FeatureName(cond.feature), cond.minValue, cond.maxValue)
          case Failure => Failure
          case Ok(single) =>
            if acc.None? then Ok(Some(single))
            else
              match Union2(lib, acc.value, single)
              case Failure => Failure
              case Ok(u) => Ok(Some(u))
  }

  /** The OR filter: each valid condition is applied to the original
      tuple and the selections are united; no valid condition gives the
      empty region. */
  function FilterOr(lib: HalconLib, regions: HRegion, conds: seq<FilterCondition>): Result<HRegion>
  {
    match FilterOrState(lib, regions, conds)
    case Failure => Failure
    case Ok(acc) => if acc.None? then Ok(NoRegion) else Ok(acc.value)
  }

  /** `applyFilter`: AND or OR by the configured mode. */
  function ApplyFilter(lib: HalconLib, regions: HRegion, filter: ShapeFilter): Result<HRegion>
  {
    if filter.mode == And then FilterAnd(lib, regions, filter.conditions)
    else FilterOr(lib, regions, filter.conditions)
  }

  /** AND mode keeps exactly the components that meet every valid condition,
      so its result never has more components than its input. */
  lemma {:induction false} FilterAndKeeps(lib: HalconLib, regions: HRegion, conds: seq<FilterCondition>)
    requires FilterAnd(lib, regions, conds).Ok?
    ensures |FilterAnd(lib, regions, conds).value.objs| <= |regions.objs|
    ensures forall o :: o in FilterAnd(lib, regions, conds).value.objs <==>
      o in regions.objs && MeetsAll(lib, o, conds)
    decreases |conds|
  {
    if conds != [] {
      var front := conds[..|conds| - 1];
      var cond := conds[|conds| - 1];
      FilterAndKeeps(lib, regions, front);
      forall o ensures MeetsAll(lib, o, conds) <==> MeetsAll(lib, o, front) && (cond.IsValid() ==> MeetsCondition(lib, o, cond)) {
        if MeetsAll(lib, o, front) && (cond.IsValid() ==> MeetsCondition(lib, o, cond)) {
          forall i | 0 <= i < |conds| && conds[i].IsValid() ensures MeetsCondition(lib, o, conds[i]) {
            if i < |front| {
              assert conds[i] == front[i];
            }
          }
        }
        if MeetsAll(lib, o, conds) {
          forall i | 0 <= i < |front| && front[i].IsValid() ensures MeetsCondition(lib, o, front[i]) {
            assert front[i] == conds[i];
          }
        }
      }
    }
  }

  /** The pixels of the components of `objs` that meet some valid condition. */
  function SurvivorPixels(lib: HalconLib, objs: seq<Obj>, conds: seq<FilterCondition>): set<Point>
  {
    set i, p | 0 <= i < |objs| && p in objs[i] && MeetsSome(lib, objs[i], conds) :: p
  }

  /** Meeting some valid condition of a list extended by one condition. */
  lemma MeetsSomeAppend(lib: HalconLib, o: Obj, front: seq<FilterCondition>, cond: FilterCondition)
    ensures MeetsSome(lib, o, front + [cond]) <==>
      MeetsSome(lib, o, front) || (cond.IsValid() && MeetsCondition(lib, o, cond))
  {
    var conds := front + [cond];
    if MeetsSome(lib, o, conds) {
      var i :| 0 <= i < |conds| && conds[i].IsValid() && MeetsCondition(lib, o, conds[i]);
      if i < |front| {
        assert front[i] == conds[i];
      }
    }
    if MeetsSome(lib, o, front) {
      var i :| 0 <= i < |front| && front[i].IsValid() && MeetsCondition(lib, o, front[i]);
      assert conds[i] == front[i];
    }
    if cond.IsValid() && MeetsCondition(lib, o, cond) {
      assert conds[|front|] == cond;
    }
  }

  /** Without a valid condition no component survives. */
  lemma SurvivorsOfNone(lib: HalconLib, objs: seq<Obj>, conds: seq<FilterCondition>)
    requires CountValid(conds) == 0
    ensures SurvivorPixels(lib, objs, conds) == {}
  {
    CountValidPositive(conds);
  }

  /** One more valid condition adds the pixels of its selection. */
  lemma SurvivorsAppend(lib: HalconLib, objs: seq<Obj>, front: seq<FilterCondition>, cond: FilterCondition)
    ensures SurvivorPixels(lib, objs, front + [cond]) ==
      SurvivorPixels(lib, objs, front) +
      (if cond.IsValid() then Cover(Select(lib, objs, FeatureName(cond.feature), cond.minValue, cond.maxValue)) else {})
  {
    var conds := front + [cond];
    var single := Select(lib, objs, FeatureName(cond.feature), cond.minValue, cond.maxValue);
    var now := SurvivorPixels(lib, objs, conds);
    var before := SurvivorPixels(lib, objs, front);
    var added: set<Point> := if cond.IsValid() then Cover(single) else {};
    forall p ensures p in now <==> p in before || p in added {
      if p in now {
        var i :| 0 <= i < |objs| && p in objs[i] && MeetsSome(lib, objs[i], conds);
        MeetsSomeAppend(lib, objs[i], front, cond);
        if !MeetsSome(lib, objs[i], front) {
          assert objs[i] in single;
        }
      }
      if p in before {
        var i :| 0 <= i < |objs| && p in objs[i] && MeetsSome(lib, objs[i], front);
        MeetsSomeAppend(lib, objs[i], front, cond);
      }
      if p in added {
        var k :| 0 <= k < |single| && p in single[k];
        assert single[k] in single;
        var i :| 0 <= i < |objs| && objs[i] == single[k];
        MeetsSomeAppend(lib, objs[i], front, cond);
      }
    }
  }

  /** The OR state holds a union exactly when some condition so far is
      valid, and the union covers exactly the pixels of the components that
      meet some valid condition so far. */
  lemma {:induction false} FilterOrStateCovers(lib: HalconLib, regions: HRegion, conds: seq<FilterCondition>)
    requires FilterOrState(lib, regions, conds).Ok?
    ensures FilterOrState(lib, regions, conds).value.Some? <==> CountValid(conds) > 0
    ensures FilterOrState(lib, regions, conds).value.Some? ==>
      Cover(FilterOrState(lib, regions, conds).value.value.objs) == SurvivorPixels(lib, regions.objs, conds)
    decreases |conds|
  {
    if conds == [] {
      assert ValidConditions(conds) == [];
    } else {
      var front := conds[..|conds| - 1];
      var cond := conds[|conds| - 1];
      assert conds == front + [cond];
      FilterOrStateCovers(lib, regions, front);
      CountValidAppend(front, cond);
      SurvivorsAppend(lib, regions.objs, front, cond);
      var acc := FilterOrState(lib, regions, front).value;
      if cond.IsValid() {
        var single := Select(lib, regions.objs, FeatureName(cond.feature), cond.minValue, cond.maxValue);
        assert SelectShape(lib, regions, FeatureName(cond.feature), cond.minValue, cond.maxValue) == Ok(HRegion(single));
        if acc.None? {
          SurvivorsOfNone(lib, regions.objs, front);
          assert FilterOrState(lib, regions, conds) == Ok(Some(HRegion(single)));
        } else {
          var u := HRegion([Cover(acc.value.objs) + Cover(single)]);
          assert FilterOrState(lib, regions, conds) == Ok(Some(u));
          CoverSingleton(Cover(acc.value.objs) + Cover(single));
        }
      } else {
        assert FilterOrState(lib, regions, conds) == Ok(acc);
      }
    }
  }

  /** OR mode: no valid condition gives the empty region; otherwise the
      result covers exactly the pixels of the components that meet at least
      one valid condition. */
  lemma FilterOrCovers(lib: HalconLib, regions: HRegion, conds: seq<FilterCondition>)
    requires FilterOr(lib, regions, conds).Ok?
    ensures CountValid(conds) == 0 ==> FilterOr(lib, regions, conds) == Ok(NoRegion)
    ensures CountValid(conds) > 0 ==> Cover(FilterOr(lib, regions, conds).value.objs) == SurvivorPixels(lib, regions.objs, conds)
  {
    FilterOrStateCovers(lib, regions, conds);
  }

  /** The region the shape filter works on, with the component counts
      before and after filtering: `Failure` when a Halcon call throws. */
  function ShapeFiltered(lib: HalconLib, processed: Mat, filter: ShapeFilter): (r: Result<(HRegion, nat, nat)>)
    requires !Empty(processed) && processed.channels == 1
  {
    match MatToHRegion(lib, processed)
    case Failure => Failure
    case Ok(input) =>
      match Halcon.Connection(lib, input)
      case Failure => Failure
      case Ok(connected) =>
        match ApplyFilter(lib, connected, filter)
        case Failure => Failure
        case Ok(filtered) =>
          match Halcon.Connection(lib, filtered)
          case Failure => Failure
          case Ok(after) => Ok((filtered, |after.objs|, |connected.objs|))
  }

  /** `StepShapeFilter::run`. Nothing happens without a processed image or
      without a valid condition. On success `currentRegions` is the number of
      components after filtering and `processed` is the filtered region's
      rendering; a throw leaves `processed` and `currentRegions` as they were
      and sets the failure reason. */
  function ShapeFilterStep(env: Env, cfg: Config, c: Ctx): (r: Ctx)
    requires Wf(c)
    ensures Wf(r)
    ensures r.(processed := c.processed, currentRegions := c.currentRegions, reason := c.reason) == c
    ensures Empty(c.processed) || !cfg.shapeFilter.HasValidConditions() ==> r == c
    ensures !Empty(c.processed) && cfg.shapeFilter.HasValidConditions() ==>
      match ShapeFiltered(env.lib, c.processed, cfg.shapeFilter)
      case Failure => r == c.(reason := ShapeFailureReason)
      case Ok((filtered, after, before)) =>
        r.currentRegions == after &&
        r.processed == HRegionToMat(env.lib, filtered, c.processed.cols, c.processed.rows) &&
        r.reason == ShapeReason(cfg.shapeFilter, env.fmt, after, before)
  {
    if Empty(c.processed) || !cfg.shapeFilter.HasValidConditions() then c
    else
      match ShapeFiltered(env.lib, c.processed, cfg.shapeFilter)
      case Failure => c.(reason := ShapeFailureReason)
      case Ok((filtered, after, before)) =>
        var resultMat := HRegionToMat(env.lib, filtered, c.processed.cols, c.processed.rows);
        if Empty(resultMat) then c.(currentRegions := after)
        else
          c.(currentRegions := after, processed := resultMat,
             reason := ShapeReason(cfg.shapeFilter, env.fmt, after, before))
  }

  /** The rendering of a successful filter is 0 exactly on the pixels of the
      components that pass it: in AND mode those meeting every valid
      condition, in OR mode those meeting some valid condition. This holds
      when the filtered tuple's first object is not empty and the rendering
      does not throw. */
  lemma FilteredMarksSurvivors(lib: HalconLib, connected: HRegion, filter: ShapeFilter, width: int, height: int,
                               y: int, x: int)
    requires filter.HasValidConditions() && ApplyFilter(lib, connected, filter).Ok?
    requires 0 <= y < height && 0 <= x < width
    requires var filtered := ApplyFilter(lib, connected, filter).value;
      !lib.fails(AreaCall(filtered)) && !lib.fails(RegionToBinCall(filtered, width, height)) &&
      |filtered.objs| > 0 && filtered.objs[0] != {}
    ensures var components := connected.objs;
      var inside := HRegionToMat(lib, ApplyFilter(lib, connected, filter).value, width, height).px[y][x] == [0];
      (filter.mode == And ==>
        (inside <==> exists i :: 0 <= i < |components| && (y, x) in components[i] && MeetsAll(lib, components[i], filter.conditions))) &&
      (filter.mode == Or ==>
        (inside <==> exists i :: 0 <= i < |components| && (y, x) in components[i] && MeetsSome(lib, components[i], filter.conditions)))
  {
    var conds := filter.conditions;
    var filtered := ApplyFilter(lib, connected, filter).value;
    var components := connected.objs;
    HRegionToMatPolarity(lib, filtered, width, height, y, x);
    var inFiltered := exists i :: 0 <= i < |filtered.objs| && (y, x) in filtered.objs[i];
    if filter.mode == And {
      FilterAndKeeps(lib, connected, conds);
      if inFiltered {
        var i :| 0 <= i < |filtered.objs| && (y, x) in filtered.objs[i];
        assert filtered.objs[i] in filtered.objs;
        var j :| 0 <= j < |components| && components[j] == filtered.objs[i];
      }
      if exists j :: 0 <= j < |components| && (y, x) in components[j] && MeetsAll(lib, components[j], conds) {
        var j :| 0 <= j < |components| && (y, x) in components[j] && MeetsAll(lib, components[j], conds);
        assert components[j] in components;
        var i :| 0 <= i < |filtered.objs| && filtered.objs[i] == components[j];
      }
    } else {
      FilterOrCovers(lib, connected, conds);
      assert inFiltered <==> (y, x) in Cover(filtered.objs);
      assert (y, x) in SurvivorPixels(lib, components, conds) <==>
        exists i :: 0 <= i < |components| && (y, x) in components[i] && MeetsSome(lib, components[i], conds);
    }
  }

  /** A successful shape filter step renders 0 into `processed` exactly on
      the pixels of the connected components of the old `processed` that
      pass the filter, under the conditions of `FilteredMarksSurvivors`. */
  lemma ShapeFilterMarksSurvivors(env: Env, cfg: Config, c: Ctx, y: int, x: int)
    requires Wf(c) && !Empty(c.processed) && cfg.shapeFilter.HasValidConditions()
    requires 0 <= y < c.processed.rows && 0 <= x < c.processed.cols
    requires ShapeFiltered(env.lib, c.processed, cfg.shapeFilter).Ok?
    requires var filtered := ShapeFiltered(env.lib, c.processed, cfg.shapeFilter).value.0;
      !env.lib.fails(AreaCall(filtered)) &&
      !env.lib.fails(RegionToBinCall(filtered, c.processed.cols, c.processed.rows)) &&
      |filtered.objs| > 0 && filtered.objs[0] != {}
    ensures Halcon.Connection(env.lib, HRegion([NonWhite(c.processed)])).Ok?
    ensures var components := Halcon.Connection(env.lib, HRegion([NonWhite(c.processed)])).value.objs;
      var conds := cfg.shapeFilter.conditions;
      var inside := ShapeFilterStep(env, cfg, c).processed.px[y][x] == [0];
      (cfg.shapeFilter.mode == And ==>
        (inside <==> exists i :: 0 <= i < |components| && (y, x) in components[i] && MeetsAll(env.lib, components[i], conds))) &&
      (cfg.shapeFilter.mode == Or ==>
        (inside <==> exists i :: 0 <= i < |components| && (y, x) in components[i] && MeetsSome(env.lib, components[i], conds)))
  {
    var connected := Halcon.Connection(env.lib, HRegion([NonWhite(c.processed)])).value;
    var filtered := ShapeFiltered(env.lib, c.processed, cfg.shapeFilter).value.0;
    assert ApplyFilter(env.lib, connected, cfg.shapeFilter) == Ok(filtered);
    assert ShapeFilterStep(env, cfg, c).processed == HRegionToMat(env.lib, filtered, c.processed.cols, c.processed.rows);
    FilteredMarksSurvivors(env.lib, connected, cfg.shapeFilter, c.processed.cols, c.processed.rows, y, x);
  }

  // ------------------------------------------------------------- methods

  /** `StepColorChannel::run` on a context object. */
  method RunColorChannel(env: Env, cfg: PipelineConfig, ctx: PipelineContext)
    requires Wf(ctx.Snapshot())
    modifies ctx
    ensures ctx.Snapshot() == ColorChannelStep(env.cv, cfg.Value(), old(ctx.Snapshot()))
  {
    if Empty(ctx.srcBgr) {
      return;
    }
    ctx.channelImg := ChannelImage(env.cv, cfg.channel, ctx.srcBgr);
  }

  /** `StepEnhance::run` on a context object. */
  method RunEnhance(env: Env, cfg: PipelineConfig, ctx: PipelineContext)
    requires Wf(ctx.Snapshot())
    modifies ctx
    ensures ctx.Snapshot() == EnhanceStep(env.cv, cfg.Value(), old(ctx.Snapshot()))
  {
    if Empty(ctx.srcBgr) {
      return;
    }
    if Empty(ctx.channelImg) {
      return;
    }
    ctx.enhanced := AdjustParameter(env.cv, ctx.channelImg, Enhancement(cfg.brightness, cfg.contrast, cfg.gamma, cfg.sharpen));
  }

  /** `StepGrayFilter::run` on a context object. */
  method RunGrayFilter(env: Env, cfg: PipelineConfig, ctx: PipelineContext)
    requires Wf(ctx.Snapshot())
    modifies ctx
    ensures ctx.Snapshot() == GrayFilterStep(env.lib, env.cv, cfg.Value(), old(ctx.Snapshot()))
  {
    if !cfg.enableGrayFilter {
      ctx.mask := EmptyMat;
      return;
    }
    if Empty(ctx.enhanced) {
      return;
    }
    var gray := if ctx.enhanced.channels == 3 then BgrToGray(env.cv, ctx.enhanced) else ctx.enhanced;
    var region := Threshold(env.lib, gray, cfg.grayLow as real, cfg.grayHigh as real);
    if region.Failure? {
      ctx.mask := EmptyMat;
      return;
    }
    ctx.mask := HRegionToMat(env.lib, region.value, gray.cols, gray.rows);
    ctx.reason := GrayReason(cfg.grayLow, cfg.grayHigh);
  }

  /** `StepColorFilter::run` on a context object. */
  method RunColorFilter(env: Env, cfg: PipelineConfig, ctx: PipelineContext)
    requires Wf(ctx.Snapshot())
    modifies ctx
    ensures ctx.Snapshot() == ColorFilterStep(env.cv, cfg.Value(), old(ctx.Snapshot()))
  {
    if !cfg.enableColorFilter {
      return;
    }
    var input := if Empty(ctx.enhanced) then ctx.srcBgr else ctx.enhanced;
    var filterMask;
    if cfg.colorFilterMode == RgbColorFilter {
      filterMask := FilterRGB(input, cfg.rLow, cfg.rHigh, cfg.gLow, cfg.gHigh, cfg.bLow, cfg.bHigh);
    } else if cfg.colorFilterMode == HsvColorFilter {
      filterMask := FilterHSV(env.cv, input, cfg.hLow, cfg.hHigh, cfg.sLow, cfg.sHigh, cfg.vLow, cfg.vHigh);
    } else {
      return;
    }
    assert filterMask == ColorMask(env.cv, cfg.Value(), input);
    if !Empty(ctx.mask) {
      ctx.mask := BitwiseAnd(ctx.mask, filterMask);
    } else {
      ctx.mask := filterMask;
    }
    ctx.reason := ColorReason(cfg.colorFilterMode);
  }

  /** `StepAlgorithmQueue::run` on a context object, running the queue
      method. */
  method RunAlgorithmQueue(env: Env, queue: seq<AlgorithmStep>, ctx: PipelineContext)
    requires Wf(ctx.Snapshot())
    modifies ctx
    ensures ctx.Snapshot() == AlgorithmQueueStep(env, queue, old(ctx.Snapshot()))
  {
    if queue == [] {
      return;
    }
    var input: Mat;
    if !Empty(ctx.mask) {
      input := ctx.mask;
    } else if !Empty(ctx.enhanced) {
      input := if ctx.enhanced.channels == 3 then BgrToGray(env.cv, ctx.enhanced) else ctx.enhanced;
    } else {
      input := if ctx.srcBgr.channels == 3 then BgrToGray(env.cv, ctx.srcBgr) else ctx.srcBgr;
    }
    if Empty(input) {
      return;
    }
    var result := ExecuteAlgorithmQueue(env.lib, env.cv, env.conv, input, queue);
    if !Empty(result) {
      ctx.processed := result;
      ctx.reason := QueueReason(|queue|);
    }
  }

  /** `applyFilterAnd`, following the source's loop: each valid condition
      replaces the current tuple by its selection. */
  method ApplyFilterAnd(lib: HalconLib, regions: HRegion, conds: seq<FilterCondition>) returns (r: Result<HRegion>)
    ensures r == FilterAnd(lib, regions, conds)
  {
    var result := regions;
    var i := 0;
    while i < |conds|
      invariant 0 <= i <= |conds|
      invariant FilterAnd(lib, regions, conds[..i]) == Ok(result)
    {
      var cond := conds[i];
      assert conds[..i + 1][..i] == conds[..i];
      if !cond.IsValid() {
        i := i + 1;
        continue;
      }
      var selected := SelectShape(lib, result, FeatureName(cond.feature), cond.minValue, cond.maxValue);
      if selected.Failure? {
        FilterAndFailurePersists(lib, regions, conds, i + 1);
        return Failure;
      }
      result := selected.value;
      i := i + 1;
    }
    assert conds[..i] == conds;
    return Ok(result);
  }

  /** A throw on a prefix of the conditions fails the whole AND filter. */
  lemma {:induction false} FilterAndFailurePersists(lib: HalconLib, regions: HRegion, conds: seq<FilterCondition>, n: nat)
    requires n <= |conds| && FilterAnd(lib, regions, conds[..n]).Failure?
    ensures FilterAnd(lib, regions, conds).Failure?
    decreases |conds|
  {
    if n < |conds| {
      var front := conds[..|conds| - 1];
      assert front[..n] == conds[..n];
      FilterAndFailurePersists(lib, regions, front, n);
    } else {
      assert conds[..n] == conds;
    }
  }

  /** A throw on a prefix of the conditions fails the whole OR filter. */
  lemma {:induction false} FilterOrFailurePersists(lib: HalconLib, regions: HRegion, conds: seq<FilterCondition>, n: nat)
    requires n <= |conds| && FilterOrState(lib, regions, conds[..n]).Failure?
    ensures FilterOrState(lib, regions, conds).Failure?
    decreases |conds|
  {
    if n < |conds| {
      var front := conds[..|conds| - 1];
      assert front[..n] == conds[..n];
      FilterOrFailurePersists(lib, regions, front, n);
    } else {
      assert conds[..n] == conds;
    }
  }

  /** `applyFilterOr`, following the source's loop with its `hasResult` flag. */
  method ApplyFilterOr(lib: HalconLib, regions: HRegion, conds: seq<FilterCondition>) returns (r: Result<HRegion>)
    ensures r == FilterOr(lib, regions, conds)
  {
    var result := NoRegion;
    var hasResult := false;
    var i := 0;
    while i < |conds|
      invariant 0 <= i <= |conds|
      invariant FilterOrState(lib, regions, conds[..i]) == Ok(if hasResult then Some(result) else None)
    {
      var cond := conds[i];
      assert conds[..i + 1][..i] == conds[..i];
      if !cond.IsValid() {
        i := i + 1;
        continue;
      }
      var single := SelectShape(lib, regions, FeatureName(cond.feature), cond.minValue, cond.maxValue);
      if single.Failure? {
        FilterOrFailurePersists(lib, regions, conds, i + 1);
        return Failure;
      }
      if !hasResult {
        result := single.value;
        hasResult := true;
      } else {
        var u := Union2(lib, result, single.value);
        if u.Failure? {
          FilterOrFailurePersists(lib, regions, conds, i + 1);
          return Failure;
        }
        result := u.value;
      }
      i := i + 1;
    }
    assert conds[..i] == conds;
    return if hasResult then Ok(result) else Ok(NoRegion);
  }

  /** The `try` block of `StepShapeFilter::run` up to the rendering: the
      processed image as a region, split into connected components,
      filtered in the configured mode, and the survivors counted again. */
  method FilterProcessed(lib: HalconLib, processed: Mat, filter: ShapeFilter) returns (r: Result<(HRegion, nat, nat)>)
    requires !Empty(processed) && processed.channels == 1
    ensures r == ShapeFiltered(lib, processed, filter)
  {
    var input := MatToHRegion(lib, processed);
    if input.Failure? {
      return Failure;
    }
    var connected := Halcon.Connection(lib, input.value);
    if connected.Failure? {
      return Failure;
    }
    var filtered;
    if filter.mode == And {
      filtered := ApplyFilterAnd(lib, connected.value, filter.conditions);
    } else {
      filtered := ApplyFilterOr(lib, connected.value, filter.conditions);
    }
    if filtered.Failure? {
      return Failure;
    }
    var connectedResult := Halcon.Connection(lib, filtered.value);
    if connectedResult.Failure? {
      return Failure;
    }
    return Ok((filtered.value, |connectedResult.value.objs|, |connected.value.objs|));
  }

  /** `StepShapeFilter::run` on a context object. */
  method RunShapeFilter(env: Env, cfg: PipelineConfig, ctx: PipelineContext)
    requires Wf(ctx.Snapshot())
    modifies ctx
    ensures ctx.Snapshot() == ShapeFilterStep(env, cfg.Value(), old(ctx.Snapshot()))
  {
    if Empty(ctx.processed) {
      return;
    }
    var filter := cfg.shapeFilter.Value();
    if !filter.HasValidConditions() {
      return;
    }
    var outcome := FilterProcessed(env.lib, ctx.processed, filter);
    if outcome.Failure? {
      ctx.reason := ShapeFailureReason;
      return;
    }
    var (filtered, numAfter, numBefore) := outcome.value;
    ctx.currentRegions := numAfter;
    var resultMat := HRegionToMat(env.lib, filtered, ctx.processed.cols, ctx.processed.rows);
    if !Empty(resultMat) {
      ctx.processed := resultMat;
      ctx.reason := ShapeReason(filter, env.fmt, numAfter, numBefore);
    }
  }
}
