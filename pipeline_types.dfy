/** The data of the pipeline (`include/pipeline.h`): region features, the
    display configuration, the pipeline configuration and the context the
    steps thread through. */
module PipelineTypes {
  import opened Raster
  import opened ImageUtils
  import opened ShapeFilterTypes

  /** `RegionFeature`: the measurements of one component; `bbox` keeps its
      default null rectangle. */
  datatype RegionFeature = RegionFeature(
    index: int, area: real, circularity: real, centerX: real, centerY: real,
    width: real, height: real, bbox: Rect)

  /** `DisplayConfig::Mode`. */
  datatype DisplayMode = Original | Enhanced | MaskGreenWhite | MaskOverlay | Processed

  /** `DisplayConfig`: what the final display shows, and the overlay opacity. */
  datatype DisplayConfig = DisplayConfig(mode: DisplayMode, overlayAlpha: real)
  {
    /** `shouldShowGreenWhite`. */
    predicate ShouldShowGreenWhite()
    {
      mode == MaskGreenWhite
    }

    /** `shouldOverlay`. */
    predicate ShouldOverlay()
    {
      mode == MaskOverlay
    }
  }

  /** The overlay opacity 0.3 of the default display configuration. */
  const DefaultAlpha: real := 0.3

  /** A default `DisplayConfig`: the original image, opacity 0.3. */
  function DefaultDisplay(): (d: DisplayConfig)
    ensures d.mode == Original && d.overlayAlpha == DefaultAlpha
    ensures !d.ShouldShowGreenWhite() && !d.ShouldOverlay()
  {
    DisplayConfig(Original, DefaultAlpha)
  }

  /** The two display predicates hold for exactly one mode each, so no
      configuration asks for both. */
  lemma DisplayPredicates(d: DisplayConfig)
    ensures d.ShouldShowGreenWhite() <==> d.mode == MaskGreenWhite
    ensures d.ShouldOverlay() <==> d.mode == MaskOverlay
    ensures !(d.ShouldShowGreenWhite() && d.ShouldOverlay())
  {
  }

  /** `PipelineConfig::Channel`. */
  datatype Channel = Gray | RGB | BGR | HSV | B | G | R

  /** `PipelineConfig::ColorFilterMode`. */
  datatype ColorFilterMode = NoColorFilter | RgbColorFilter | HsvColorFilter

  /** `PipelineConfig::FilterMode`, the filter page shown in the interface. */
  datatype ViewFilterMode = NoFilter | GrayFilter | RgbFilter | HsvFilter

  /** A value of `PipelineConfig`. */
  datatype Config = Config(
    channel: Channel,
    currentFilterMode: ViewFilterMode,
    enableColorFilter: bool,
    colorFilterMode: ColorFilterMode,
    brightness: int, contrast: real, gamma: real, sharpen: real,
    grayLow: int, grayHigh: int, enableGrayFilter: bool, enableAreaFilter: bool,
    rLow: int, rHigh: int, gLow: int, gHigh: int, bLow: int, bHigh: int,
    hLow: int, hHigh: int, sLow: int, sHigh: int, vLow: int, vHigh: int,
    shapeFilter: ShapeFilter)
  {
    /** The tone-mapping parameters handed to the enhancement stage. */
    function Tone(): Enhancement
    {
      Enhancement(brightness, contrast, gamma, sharpen)
    }
  }

  /** The complete default configuration: RGB channel, neutral tone mapping,
      gray filter on over [0, 255], colour filter off with full ranges, an
      empty shape filter. */
  function DefaultConfig(): (c: Config)
    ensures c.channel == RGB && c.grayLow == 0 && c.grayHigh == 255 && c.enableGrayFilter
    ensures c.rLow == 0 && c.rHigh == 255 && c.gLow == 0 && c.gHigh == 255 && c.bLow == 0 && c.bHigh == 255
    ensures c.hLow == 0 && c.hHigh == 179 && c.sLow == 0 && c.sHigh == 255 && c.vLow == 0 && c.vHigh == 255
    ensures !c.enableColorFilter && c.colorFilterMode == NoColorFilter && c.currentFilterMode == NoFilter
    ensures c.Tone() == Enhancement(0, 1.0, 1.0, 0.0)
    ensures !c.shapeFilter.HasValidConditions()
  {
    Config(RGB, NoFilter, false, NoColorFilter, 0, 1.0, 1.0, 0.0, 0, 255, true, false,
           0, 255, 0, 255, 0, 255, 0, 179, 0, 255, 0, 255,
           ShapeFilter([], And, false))
  }

  /** The gray range after the "low above high" guard: the two slider values
      in ascending order. */
  function OrderedRange(low: int, high: int): (r: (int, int))
    ensures r.0 <= r.1
    ensures multiset{r.0, r.1} == multiset{low, high}
    ensures low <= high ==> r == (low, high)
  {
    if low > high then (high, low) else (low, high)
  }

  /** A slider position read as a fraction: position / 100. */
  function Percent(pos: int): real
  {
    pos as real / 100.0
  }

  /** `PipelineConfig`, updated in place by the manager and the user interface. */
  class PipelineConfig {
    var channel: Channel
    var currentFilterMode: ViewFilterMode
    var enableColorFilter: bool
    var colorFilterMode: ColorFilterMode
    var brightness: int
    var contrast: real
    var gamma: real
    var sharpen: real
    var grayLow: int
    var grayHigh: int
    var enableGrayFilter: bool
    var enableAreaFilter: bool
    var rLow: int
    var rHigh: int
    var gLow: int
    var gHigh: int
    var bLow: int
    var bHigh: int
    var hLow: int
    var hHigh: int
    var sLow: int
    var sHigh: int
    var vLow: int
    var vHigh: int
    var shapeFilter: ShapeFilterConfig

    /** The configuration's current value. */
    function Value(): Config
      reads this, shapeFilter
    {
      Config(channel, currentFilterMode, enableColorFilter, colorFilterMode,
             brightness, contrast, gamma, sharpen, grayLow, grayHigh, enableGrayFilter, enableAreaFilter,
             rLow, rHigh, gLow, gHigh, bLow, bHigh, hLow, hHigh, sLow, sHigh, vLow, vHigh,
             shapeFilter.Value())
    }

    /** A configuration holding the member initialisers. */
    constructor ()
      ensures Value() == DefaultConfig()
      ensures fresh(shapeFilter)
    {
      channel := RGB;
      currentFilterMode := NoFilter;
      enableColorFilter := false;
      colorFilterMode := NoColorFilter;
      brightness := 0;
      contrast := 1.0;
      gamma := 1.0;
      sharpen := 0.0;
      grayLow := 0;
      grayHigh := 255;
      enableGrayFilter := true;
      enableAreaFilter := false;
      rLow, rHigh, gLow, gHigh, bLow, bHigh := 0, 255, 0, 255, 0, 255;
      hLow, hHigh, sLow, sHigh, vLow, vHigh := 0, 179, 0, 255, 0, 255;
      shapeFilter := new ShapeFilterConfig();
    }

    /** `syncConfigFromUI`, given the six slider positions: brightness as is,
        contrast, gamma and sharpening divided by 100, and the gray range in
        ascending order. Nothing else changes. */
    method SyncConfigFromUI(brightnessPos: int, contrastPos: int, gammaPos: int, sharpenPos: int,
                            grayLowPos: int, grayHighPos: int)
      modifies this
      ensures shapeFilter == old(shapeFilter)
      ensures brightness == brightnessPos && contrast == Percent(contrastPos)
      ensures gamma == Percent(gammaPos) && sharpen == Percent(sharpenPos)
      ensures (grayLow, grayHigh) == OrderedRange(grayLowPos, grayHighPos)
      ensures channel == old(channel) && currentFilterMode == old(currentFilterMode)
      ensures enableColorFilter == old(enableColorFilter) && colorFilterMode == old(colorFilterMode)
      ensures enableGrayFilter == old(enableGrayFilter) && enableAreaFilter == old(enableAreaFilter)
      ensures rLow == old(rLow) && rHigh == old(rHigh) && gLow == old(gLow) && gHigh == old(gHigh)
      ensures bLow == old(bLow) && bHigh == old(bHigh) && hLow == old(hLow) && hHigh == old(hHigh)
      ensures sLow == old(sLow) && sHigh == old(sHigh) && vLow == old(vLow) && vHigh == old(vHigh)
    {
      var low, high := grayLowPos, grayHighPos;
      if low > high {
        low, high := high, low;
      }
      brightness, contrast, gamma, sharpen, grayLow, grayHigh :=
        brightnessPos, Percent(contrastPos), Percent(gammaPos), Percent(sharpenPos), low, high;
    }

    /** `resetEnhancement`: brightness 0, contrast 1, gamma 1, sharpening 1
        (not the initial 0) and the gray filter off; nothing else changes. */
    method ResetEnhancement()
      modifies this
      ensures shapeFilter == old(shapeFilter)
      ensures Value() == old(Value()).(brightness := 0, contrast := 1.0, gamma := 1.0, sharpen := 1.0,
                                       enableGrayFilter := false)
    {
      ghost var before := Value();
      brightness, contrast, gamma, sharpen, enableGrayFilter := 0, 1.0, 1.0, 1.0, false;
      assert Value() == before.(brightness := 0, contrast := 1.0, gamma := 1.0, sharpen := 1.0,
                                enableGrayFilter := false);
    }
  }

  /** A value of `PipelineContext`. */
  datatype Ctx = Ctx(
    display: DisplayConfig,
    srcBgr: Mat, channelImg: Mat, enhanced: Mat, mask: Mat, processed: Mat,
    regions: seq<RegionFeature>, currentRegions: int, pass: bool, reason: string)

  /** A default `PipelineContext`: no images, no regions, zero regions
      counted, passing, no reason. */
  function DefaultCtx(): (c: Ctx)
    ensures c.display == DefaultDisplay()
    ensures c.srcBgr == EmptyMat && c.channelImg == EmptyMat && c.enhanced == EmptyMat
    ensures c.mask == EmptyMat && c.processed == EmptyMat
    ensures c.regions == [] && c.currentRegions == 0 && c.pass && c.reason == ""
  {
    Ctx(DefaultDisplay(), EmptyMat, EmptyMat, EmptyMat, EmptyMat, EmptyMat, [], 0, true, "")
  }

  /** `PipelineContext`, which every step updates in place. */
  class PipelineContext {
    var display: DisplayConfig
    var srcBgr: Mat
    var channelImg: Mat
    var enhanced: Mat
    var mask: Mat
    var processed: Mat
    var regions: seq<RegionFeature>
    var currentRegions: int
    var pass: bool
    var reason: string

    /** The context's current value. */
    function Snapshot(): Ctx
      reads this
    {
      Ctx(display, srcBgr, channelImg, enhanced, mask, processed, regions, currentRegions, pass, reason)
    }

    /** A default context. */
    constructor ()
      ensures Snapshot() == DefaultCtx()
    {
      display := DefaultDisplay();
      srcBgr, channelImg, enhanced, mask, processed := EmptyMat, EmptyMat, EmptyMat, EmptyMat, EmptyMat;
      regions := [];
      currentRegions := 0;
      pass := true;
      reason := "";
    }
  }
}
