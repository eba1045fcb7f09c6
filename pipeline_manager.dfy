/** `PipelineManager` (`src/pipeline_manager.cpp`): owns the configuration,
    the algorithm queue, the pipeline and the context of the last run, and
    is the interface through which the user interface changes them. */
module PipelineManagers {
  import opened Wrappers
  import opened Raster
  import opened ShapeFilterTypes
  import opened AlgorithmSteps
  import opened PipelineTypes
  import opened PipelineSteps
  import opened Pipelines
  import opened Display

  // ------------------------------------------------------- queue editing

  /** `QVector::removeAt(i)`: the element at `i` is dropped, the rest keep
      their order. */
  function Removed<T>(q: seq<T>, i: nat): (r: seq<T>)
    requires i < |q|
    ensures |r| == |q| - 1
    ensures forall k :: 0 <= k < i ==> r[k] == q[k]
    ensures forall k :: i <= k < |r| ==> r[k] == q[k + 1]
  {
    q[..i] + q[i + 1..]
  }

  /** `QVector::swapItemsAt(i, j)`. */
  function Swapped<T>(q: seq<T>, i: nat, j: nat): (r: seq<T>)
    requires i < |q| && j < |q|
    ensures |r| == |q| && r[i] == q[j] && r[j] == q[i]
    ensures forall k :: 0 <= k < |q| && k != i && k != j ==> r[k] == q[k]
  {
    q[i := q[j]][j := q[i]]
  }

  /** Removing keeps every other entry: the multiset loses exactly one copy
      of the removed step. */
  lemma RemovedMultiset<T>(q: seq<T>, i: nat)
    requires i < |q|
    ensures multiset(Removed(q, i)) + multiset{q[i]} == multiset(q)
  {
    assert q == q[..i] + [q[i]] + q[i + 1..];
  }

  /** Swapping permutes the queue, and swapping back restores it. */
  lemma SwappedPermutes<T>(q: seq<T>, i: nat, j: nat)
    requires i < |q| && j < |q|
    ensures multiset(Swapped(q, i, j)) == multiset(q)
    ensures Swapped(Swapped(q, i, j), i, j) == q
  {
    var r1 := q[i := q[j]];
    assert multiset(r1) == multiset(q) - multiset{q[i]} + multiset{q[j]};
    if i != j {
      assert r1[j] == q[j];
    }
  }

  /** The steps `initPipeline` adds, in order. */
  function StandardSteps(): (s: seq<StepKind>)
    ensures |s| == 6 && s[0] == StepColorChannel && s[5] == StepShapeFilter
  {
    [StepColorChannel, StepEnhance, StepGrayFilter, StepColorFilter, StepAlgorithmQueue, StepShapeFilter]
  }

  /** The context `execute` prepares: every artifact released, no regions,
      passing, no reason, the given source and display settings. */
  function FreshCtx(input: Mat, mode: DisplayMode, alpha: real): (c: Ctx)
    ensures c.srcBgr == input && c.display == DisplayConfig(mode, alpha)
  {
    DefaultCtx().(srcBgr := input, display := DisplayConfig(mode, alpha))
  }

  /** The text of the `pipelineFinished` signal: the reason, or
      "Pipeline执行完成" when there is none. */
  function FinishedMessage(reason: string): (m: string)
    ensures reason != "" ==> m == reason
    ensures |m| > 0
  {
    if reason == "" then "Pipeline执行完成" else reason
  }

  /** A run of the standard pipeline on a fresh context keeps the input and
      the display settings, produces no region list and never fails the
      verdict; what it shows is empty or a colour image of the input's size. */
  lemma StandardRunFrame(env: Env, cfg: Config, queue: seq<AlgorithmStep>, input: Mat, mode: DisplayMode, alpha: real)
    requires !Empty(input) && input.channels == 3 && 0.0 <= alpha <= 1.0
    ensures Wf(FreshCtx(input, mode, alpha))
    ensures var r := RunAll(env, cfg, queue, StandardSteps(), FreshCtx(input, mode, alpha));
      r.srcBgr == input && r.display == DisplayConfig(mode, alpha) && r.regions == [] && r.pass &&
      var shown := FinalDisplay(r);
      Empty(shown) || (shown.channels == 3 && SameSize(shown, input))
  {
  }

  /** An empty queue leaves `processed` empty, so the shape filter does
      nothing either: the run is the first four steps. */
  lemma {:induction false} EmptyQueueRun(env: Env, cfg: Config, input: Mat, mode: DisplayMode, alpha: real)
    requires !Empty(input) && input.channels == 3
    ensures var c := FreshCtx(input, mode, alpha);
      RunAll(env, cfg, [], StandardSteps(), c) == RunAll(env, cfg, [], StandardSteps()[..4], c)
  {
    var c := FreshCtx(input, mode, alpha);
    var s := StandardSteps();
    var pre := s[..4];
    assert s == pre + [StepAlgorithmQueue, StepShapeFilter];
    assert forall i :: 0 <= i < |pre| ==> !WritesProcessed(pre[i]);
    IdleSuffix(env, cfg, pre, c);
  }

  /** With an empty queue, steps that leave `processed` empty are followed
      by a queue step and a shape filter that change nothing. */
  lemma {:induction false} IdleSuffix(env: Env, cfg: Config, a: seq<StepKind>, c: Ctx)
    requires Wf(c) && c.processed == EmptyMat
    requires forall i :: 0 <= i < |a| ==> !WritesProcessed(a[i])
    ensures RunAll(env, cfg, [], a + [StepAlgorithmQueue, StepShapeFilter], c) == RunAll(env, cfg, [], a, c)
  {
    var q := a + [StepAlgorithmQueue];
    assert a + [StepAlgorithmQueue, StepShapeFilter] == q + [StepShapeFilter];
    assert (q + [StepShapeFilter])[..|q|] == q;
    assert q[..|a|] == a;
    var d := RunAll(env, cfg, [], a, c);
    IdleSteps(env, cfg, d);
    assert RunAll(env, cfg, [], q, c) == d;
  }

  /** With an empty queue and no processed image, the queue step and the
      shape filter each change nothing. */
  lemma IdleSteps(env: Env, cfg: Config, d: Ctx)
    requires Wf(d) && d.processed == EmptyMat
    ensures StepSpec(env, cfg, [], StepAlgorithmQueue, d) == d
    ensures StepSpec(env, cfg, [], StepShapeFilter, d) == d
  {
  }

  /** `PipelineManager`. */
  class PipelineManager {
    /** The image processor and Halcon it owns, as foreign functions. */
    const env: Env
    var config: PipelineConfig
    var pipeline: Pipeline
    var queue: seq<AlgorithmStep>
    var lastContext: PipelineContext
    var displayMode: DisplayMode
    var overlayAlpha: real

    /** The pipeline holds the standard steps, the opacity is the fixed 0.3,
        and the last context is one the steps and the display accept. */
    predicate Valid()
      reads this, pipeline, lastContext
    {
      pipeline.steps == StandardSteps() && overlayAlpha == DefaultAlpha &&
      Wf(lastContext.Snapshot()) && 0.0 <= lastContext.display.overlayAlpha <= 1.0
    }

    /** The constructor: the enhancement reset of the configuration, then the
        standard pipeline; an empty queue and a default last context. */
    constructor (e: Env)
      ensures Valid() && env == e
      ensures config.Value() == DefaultConfig().(brightness := 0, contrast := 1.0, gamma := 1.0,
                                                 sharpen := 1.0, enableGrayFilter := false)
      ensures queue == [] && lastContext.Snapshot() == DefaultCtx()
      ensures displayMode == MaskGreenWhite
      ensures fresh(config) && fresh(config.shapeFilter) && fresh(pipeline) && fresh(lastContext)
    {
      env := e;
      config := new PipelineConfig();
      pipeline := new Pipeline();
      queue := [];
      lastContext := new PipelineContext();
      displayMode := MaskGreenWhite;
      overlayAlpha := DefaultAlpha;
      new;
      config.ResetEnhancement();
      InitPipeline();
    }

    /** `initPipeline`: a new pipeline holding the six steps in order. */
    method InitPipeline()
      modifies this
      ensures pipeline.steps == StandardSteps() && fresh(pipeline)
      ensures config == old(config) && queue == old(queue) && lastContext == old(lastContext)
      ensures displayMode == old(displayMode) && overlayAlpha == old(overlayAlpha)
    {
      var p := new Pipeline();
      p.Add(StepColorChannel);
      p.Add(StepEnhance);
      p.Add(StepGrayFilter);
      p.Add(StepColorFilter);
      p.Add(StepAlgorithmQueue);
      p.Add(StepShapeFilter);
      pipeline := p;
    }

    // ------------------------------------------------------ configuration

    /** `syncFromUI`: forwards the slider positions to the configuration. */
    method SyncFromUI(brightnessPos: int, contrastPos: int, gammaPos: int, sharpenPos: int,
                      grayLowPos: int, grayHighPos: int)
      modifies config
      ensures config.shapeFilter == old(config.shapeFilter)
      ensures config.Value() == old(config.Value()).(
        brightness := brightnessPos, contrast := Percent(contrastPos), gamma := Percent(gammaPos),
        sharpen := Percent(sharpenPos),
        grayLow := OrderedRange(grayLowPos, grayHighPos).0, grayHigh := OrderedRange(grayLowPos, grayHighPos).1)
    {
      config.SyncConfigFromUI(brightnessPos, contrastPos, gammaPos, sharpenPos, grayLowPos, grayHighPos);
    }

    /** `resetEnhancement`. */
    method ResetEnhancement()
      modifies config
      ensures config.shapeFilter == old(config.shapeFilter)
      ensures config.Value() == old(config.Value()).(brightness := 0, contrast := 1.0, gamma := 1.0,
                                                     sharpen := 1.0, enableGrayFilter := false)
    {
      config.ResetEnhancement();
    }

    /** `setGrayFilterEnabled`. */
    method SetGrayFilterEnabled(enabled: bool)
      modifies config
      ensures config.shapeFilter == old(config.shapeFilter)
      ensures config.Value() == old(config.Value()).(enableGrayFilter := enabled)
    {
      config.enableGrayFilter := enabled;
    }

    /** `setAreaFilterEnabled`. */
    method SetAreaFilterEnabled(enabled: bool)
      modifies config
      ensures config.shapeFilter == old(config.shapeFilter)
      ensures config.Value() == old(config.Value()).(enableAreaFilter := enabled)
    {
      config.enableAreaFilter := enabled;
    }

    /** `addFilterCondition`: appends the condition and switches the shape
        filter on, so a valid condition puts the filter in force. */
    method AddFilterCondition(c: FilterCondition)
      modifies config.shapeFilter
      ensures config.shapeFilter.Value() ==
        old(config.shapeFilter.Value()).(conditions := old(config.shapeFilter.conditions) + [c], enabled := true)
      ensures c.IsValid() ==> config.shapeFilter.Value().HasValidConditions()
    {
      config.shapeFilter.AddCondition(c);
      config.shapeFilter.enabled := true;
    }

    /** `setFilterMode`. */
    method SetFilterMode(mode: FilterMode)
      modifies config.shapeFilter
      ensures config.shapeFilter.Value() == old(config.shapeFilter.Value()).(mode := mode)
    {
      config.shapeFilter.mode := mode;
    }

    /** `clearShapeFilter`: no condition is in force afterwards. */
    method ClearShapeFilter()
      modifies config.shapeFilter
      ensures config.shapeFilter.conditions == [] && !config.shapeFilter.enabled
      ensures config.shapeFilter.mode == old(config.shapeFilter.mode)
      ensures !config.shapeFilter.Value().HasValidConditions()
    {
      config.shapeFilter.Clear();
    }

    /** `enableShapeFilter`. */
    method EnableShapeFilter(enable: bool)
      modifies config.shapeFilter
      ensures config.shapeFilter.Value() == old(config.shapeFilter.Value()).(enabled := enable)
    {
      config.shapeFilter.enabled := enable;
    }

    /** `setFeatureRange`: adds an enabled condition on the feature (it does
        not replace an earlier one on the same feature). */
    method SetFeatureRange(feature: ShapeFeature, minValue: real, maxValue: real)
      modifies config.shapeFilter
      ensures config.shapeFilter.Value() == old(config.shapeFilter.Value()).(
        conditions := old(config.shapeFilter.conditions) + [NewCondition(feature, minValue, maxValue)], enabled := true)
      ensures 0.0 <= minValue <= maxValue ==> config.shapeFilter.Value().HasValidConditions()
    {
      AddFilterCondition(NewCondition(feature, minValue, maxValue));
    }

    /** `setChannelMode`. */
    method SetChannelMode(channel: Channel)
      modifies config
      ensures config.shapeFilter == old(config.shapeFilter)
      ensures config.Value() == old(config.Value()).(channel := channel)
    {
      config.channel := channel;
    }

    /** `setColorFilterEnabled`. */
    method SetColorFilterEnabled(enabled: bool)
      modifies config
      ensures config.shapeFilter == old(config.shapeFilter)
      ensures config.Value() == old(config.Value()).(enableColorFilter := enabled)
    {
      config.enableColorFilter := enabled;
    }

    /** `setColorFilterMode`. */
    method SetColorFilterMode(mode: ColorFilterMode)
      modifies config
      ensures config.shapeFilter == old(config.shapeFilter)
      ensures config.Value() == old(config.Value()).(colorFilterMode := mode)
    {
      config.colorFilterMode := mode;
    }

    /** `setRGBRange`: the six bounds as given; clamping happens when the
        filter runs. */
    method SetRGBRange(rLow: int, rHigh: int, gLow: int, gHigh: int, bLow: int, bHigh: int)
      modifies config
      ensures config.shapeFilter == old(config.shapeFilter)
      ensures config.Value() == old(config.Value()).(rLow := rLow, rHigh := rHigh, gLow := gLow,
                                                     gHigh := gHigh, bLow := bLow, bHigh := bHigh)
    {
      config.rLow, config.rHigh := rLow, rHigh;
      config.gLow, config.gHigh := gLow, gHigh;
      config.bLow, config.bHigh := bLow, bHigh;
    }

    /** `setHSVRange`: the six bounds as given. */
    method SetHSVRange(hLow: int, hHigh: int, sLow: int, sHigh: int, vLow: int, vHigh: int)
      modifies config
      ensures config.shapeFilter == old(config.shapeFilter)
      ensures config.Value() == old(config.Value()).(hLow := hLow, hHigh := hHigh, sLow := sLow,
                                                     sHigh := sHigh, vLow := vLow, vHigh := vHigh)
    {
      config.hLow, config.hHigh := hLow, hHigh;
      config.sLow, config.sHigh := sLow, sHigh;
      config.vLow, config.vHigh := vLow, vHigh;
    }

    /** `setCurrentFilterMode`. */
    method SetCurrentFilterMode(mode: ViewFilterMode)
      modifies config
      ensures config.shapeFilter == old(config.shapeFilter)
      ensures config.Value() == old(config.Value()).(currentFilterMode := mode)
    {
      config.currentFilterMode := mode;
    }

    /** `setDisplayMode`: takes effect at the next `execute`. */
    method SetDisplayMode(mode: DisplayMode)
      modifies this
      ensures displayMode == mode
      ensures config == old(config) && pipeline == old(pipeline) && queue == old(queue)
      ensures lastContext == old(lastContext) && overlayAlpha == old(overlayAlpha)
    {
      displayMode := mode;
    }

    /** `setOverlayAlpha`: its body is empty, so the opacity stays 0.3. */
    method SetOverlayAlpha(alpha: real)
      ensures overlayAlpha == old(overlayAlpha)
    {
    }

    // ------------------------------------------------------ algorithm queue

    /** `addAlgorithmStep`: appends. */
    method AddAlgorithmStep(step: AlgorithmStep)
      modifies this
      ensures queue == old(queue) + [step]
      ensures config == old(config) && pipeline == old(pipeline) && lastContext == old(lastContext)
      ensures displayMode == old(displayMode) && overlayAlpha == old(overlayAlpha)
    {
      queue := queue + [step];
    }

    /** `removeAlgorithmStep`: removes the step at an index inside the queue
        and ignores any other index. */
    method RemoveAlgorithmStep(index: int)
      modifies this
      ensures 0 <= index < |old(queue)| ==> queue == Removed(old(queue), index)
      ensures !(0 <= index < |old(queue)|) ==> queue == old(queue)
      ensures config == old(config) && pipeline == old(pipeline) && lastContext == old(lastContext)
      ensures displayMode == old(displayMode) && overlayAlpha == old(overlayAlpha)
    {
      if index >= 0 && index < |queue| {
        queue := queue[..index] + queue[index + 1..];
      }
    }

    /** `swapAlgorithmStep`: only the upper bounds are checked, so callers
        must not pass a negative index alongside in-range ones (Qt asserts). */
    method SwapAlgorithmStep(index1: int, index2: int)
      requires index1 < |queue| && index2 < |queue| ==> 0 <= index1 && 0 <= index2
      modifies this
      ensures index1 < |old(queue)| && index2 < |old(queue)| ==> queue == Swapped(old(queue), index1, index2)
      ensures !(index1 < |old(queue)| && index2 < |old(queue)|) ==> queue == old(queue)
      ensures multiset(queue) == multiset(old(queue))
      ensures config == old(config) && pipeline == old(pipeline) && lastContext == old(lastContext)
      ensures displayMode == old(displayMode) && overlayAlpha == old(overlayAlpha)
    {
      if index1 < |queue| && index2 < |queue| {
        SwappedPermutes(queue, index1, index2);
        var a, b := queue[index1], queue[index2];
        queue := queue[index1 := b][index2 := a];
      }
    }

    /** `updateAlgorithmStep`: replaces the step at an index inside the
        queue and ignores any other index. */
    method UpdateAlgorithmStep(index: int, step: AlgorithmStep)
      modifies this
      ensures 0 <= index < |old(queue)| ==> queue == old(queue)[index := step]
      ensures !(0 <= index < |old(queue)|) ==> queue == old(queue)
      ensures config == old(config) && pipeline == old(pipeline) && lastContext == old(lastContext)
      ensures displayMode == old(displayMode) && overlayAlpha == old(overlayAlpha)
    {
      if index >= 0 && index < |queue| {
        queue := queue[index := step];
      }
    }

    /** `clearAlgorithmQueue`. */
    method ClearAlgorithmQueue()
      modifies this
      ensures queue == []
      ensures config == old(config) && pipeline == old(pipeline) && lastContext == old(lastContext)
      ensures displayMode == old(displayMode) && overlayAlpha == old(overlayAlpha)
    {
      queue := [];
    }

    // ------------------------------------------------------------ running

    /** The first half of `execute`: every artifact of the last context
        released, its regions, count, verdict and reason reset, then the
        input and the display settings stored. */
    method PrepareContext(input: Mat)
      modifies lastContext
      ensures lastContext.Snapshot() == FreshCtx(input, displayMode, overlayAlpha)
    {
      lastContext.srcBgr := EmptyMat;
      lastContext.channelImg := EmptyMat;
      lastContext.enhanced := EmptyMat;
      lastContext.mask := EmptyMat;
      lastContext.processed := EmptyMat;
      lastContext.regions := [];
      lastContext.currentRegions := 0;
      lastContext.pass := true;
      lastContext.reason := "";
      lastContext.srcBgr := input;
      lastContext.display := DisplayConfig(displayMode, overlayAlpha);
    }

    /** `execute`. An empty input returns a default context without touching
        the last one and without a signal. Otherwise the last context is
        reset, given the input and the display settings, and run through the
        pipeline; the signal carries its reason or the completion text. */
    method Execute(input: Mat) returns (result: Ctx, message: Option<string>)
      requires Valid()
      requires !Empty(input) ==> input.channels == 3
      modifies lastContext
      ensures Valid()
      ensures Empty(input) ==>
        result == DefaultCtx() && message == None && lastContext.Snapshot() == old(lastContext.Snapshot())
      ensures !Empty(input) ==>
        result == lastContext.Snapshot() &&
        result == RunAll(env, config.Value(), queue, StandardSteps(), FreshCtx(input, displayMode, overlayAlpha)) &&
        message == Some(FinishedMessage(result.reason))
    {
      if Empty(input) {
        return DefaultCtx(), None;
      }
      PrepareContext(input);
      pipeline.Run(env, config, queue, lastContext);
      result := lastContext.Snapshot();
      message := Some(FinishedMessage(result.reason));
    }

    /** `resetPipeline`: empties the queue and the shape filter (keeping its
        AND/OR mode), restores the green/white display at opacity 0.3 and
        rebuilds the pipeline; the rest of the configuration is kept. */
    method ResetPipeline()
      requires Valid()
      modifies this, config.shapeFilter
      ensures Valid()
      ensures queue == [] && displayMode == MaskGreenWhite && overlayAlpha == DefaultAlpha
      ensures config == old(config) && lastContext == old(lastContext)
      ensures config.shapeFilter.conditions == [] && !config.shapeFilter.enabled
      ensures config.shapeFilter.mode == old(config.shapeFilter.mode)
      ensures !config.Value().shapeFilter.HasValidConditions()
    {
      queue := [];
      config.shapeFilter.Clear();
      displayMode := MaskGreenWhite;
      overlayAlpha := DefaultAlpha;
      InitPipeline();
    }
  }
}
