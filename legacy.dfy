/** The older snapshot of the pipeline kept at the root of the repository
    (`image_processor.cpp`, `pipeline.cpp`, `pipeline_manager.cpp`). Where
    it is the same as the newer code, the newer members model it; this
    module holds what differs: the algorithm queue that converts on every
    step and keeps what it has on a throw, the fixed display priority chain,
    and the manager with its five-step pipeline. */
module Legacy {
  import opened Wrappers
  import opened Raster
  import opened Halcon
  import opened ImageUtils
  import opened AlgorithmSteps
  import opened HalconAlgorithm
  import opened ImageProcessor
  import opened PipelineTypes
  import opened PipelineSteps
  import opened Pipelines
  import opened Display
  import opened PipelineManagers

  // ------------------------------------------------------ algorithm queue

  /** One running step of the older queue on the image it is handed: the
      gray image is converted to a region, the step applied, and the result
      converted back to a mask of the gray image's size. A throw in either
      conversion in or in the step fails it. */
  function OlderStep(lib: HalconLib, cv: CvLib, conv: VariantConv, input: Mat, step: AlgorithmStep): (r: Result<Mat>)
    requires !Empty(input) && (input.channels == 1 || input.channels == 3)
    ensures r.Ok? ==> SameSize(r.value, input) && r.value.channels == 1 && Binary(r.value)
    ensures MatToHRegion(lib, ToGray(cv, input)).Failure? ==> r.Failure?
  {
    var gray := ToGray(cv, input);
    match MatToHRegion(lib, gray)
    case Failure => Failure
    case Ok(region) =>
      match Execute(lib, conv, region, step)
      case Failure => Failure
      case Ok(result) => Ok(HRegionToMat(lib, result, gray.cols, gray.rows))
  }

  /** The older queue's state: the image returned so far (the source until a
      step has run) and whether a throw has ended the loop. */
  datatype OlderQueue = OlderQueue(out: Mat, stopped: bool)

  /** The older queue folded in queue order. Steps that do not run are
      skipped; each running step consumes the previous output; a throw stops
      the fold with the output gathered so far. What comes back has the
      source's size and is the source itself or the mask of a step. */
  function OlderFold(lib: HalconLib, cv: CvLib, conv: VariantConv, src: Mat, queue: seq<AlgorithmStep>): (s: OlderQueue)
    requires !Empty(src) && (src.channels == 1 || src.channels == 3)
    ensures !Empty(s.out) && SameSize(s.out, src) && (s.out.channels == 1 || s.out.channels == 3)
    ensures s.out == src || (s.out.channels == 1 && Binary(s.out))
    ensures !AnyRuns(queue) ==> s == OlderQueue(src, false)
    decreases |queue|
  {
    if queue == [] then OlderQueue(src, false)
    else
      var front := queue[..|queue| - 1];
      var step := queue[|queue| - 1];
      assert AnyRuns(front) ==> AnyRuns(queue) by {
        if AnyRuns(front) {
          var i :| 0 <= i < |front| && Runs(front[i]);
          assert queue[i] == front[i];
        }
      }
      var prev := OlderFold(lib, cv, conv, src, front);
      if prev.stopped || !Runs(step) then prev
      else
        match OlderStep(lib, cv, conv, prev.out, step)
        case Failure => OlderQueue(prev.out, true)
        case Ok(next) => OlderQueue(next, false)
  }

  /** The older `executeAlgorithmQueue`, as a value: an empty source comes
      back as it is, otherwise the final output of the fold. */
  function OlderQueueSpec(lib: HalconLib, cv: CvLib, conv: VariantConv, src: Mat, queue: seq<AlgorithmStep>): (r: Mat)
    requires !Empty(src) ==> src.channels == 1 || src.channels == 3
    ensures Empty(src) || !AnyRuns(queue) ==> r == src
    ensures SameSize(r, src)
    ensures !Empty(src) ==> !Empty(r) && (r == src || (r.channels == 1 && Binary(r)))
  {
    if Empty(src) then src else OlderFold(lib, cv, conv, src, queue).out
  }

  /** Once a throw has stopped the fold, the later steps change nothing. */
  lemma {:induction false} OlderStoppedPersists(lib: HalconLib, cv: CvLib, conv: VariantConv, src: Mat,
                                              queue: seq<AlgorithmStep>, n: nat)
    requires !Empty(src) && (src.channels == 1 || src.channels == 3)
    requires n <= |queue| && OlderFold(lib, cv, conv, src, queue[..n]).stopped
    ensures OlderFold(lib, cv, conv, src, queue) == OlderFold(lib, cv, conv, src, queue[..n])
    decreases |queue|
  {
    if n < |queue| {
      var front := queue[..|queue| - 1];
      assert front[..n] == queue[..n];
      OlderStoppedPersists(lib, cv, conv, src, front, n);
    } else {
      assert queue[..n] == queue;
    }
  }

  /** A running step that succeeds on the output so far hands its mask on to
      the steps after it. */
  lemma OlderStepChains(lib: HalconLib, cv: CvLib, conv: VariantConv, src: Mat,
                        queue: seq<AlgorithmStep>, step: AlgorithmStep)
    requires !Empty(src) && (src.channels == 1 || src.channels == 3)
    requires !OlderFold(lib, cv, conv, src, queue).stopped && Runs(step)
    requires OlderStep(lib, cv, conv, OlderFold(lib, cv, conv, src, queue).out, step).Ok?
    ensures OlderFold(lib, cv, conv, src, queue + [step]) ==
      OlderQueue(OlderStep(lib, cv, conv, OlderFold(lib, cv, conv, src, queue).out, step).value, false)
  {
    assert (queue + [step])[..|queue|] == queue;
  }

  /** A throw at step k returns the output of the steps before k: the queue
      is applied up to there. */
  lemma OlderFailureKeepsPrefix(lib: HalconLib, cv: CvLib, conv: VariantConv, src: Mat,
                                queue: seq<AlgorithmStep>, k: nat)
    requires !Empty(src) && (src.channels == 1 || src.channels == 3)
    requires k < |queue| && Runs(queue[k])
    requires !OlderFold(lib, cv, conv, src, queue[..k]).stopped
    requires OlderStep(lib, cv, conv, OlderFold(lib, cv, conv, src, queue[..k]).out, queue[k]).Failure?
    ensures OlderQueueSpec(lib, cv, conv, src, queue) == OlderFold(lib, cv, conv, src, queue[..k]).out
  {
    assert queue[..k + 1][..k] == queue[..k];
    OlderStoppedPersists(lib, cv, conv, src, queue, k + 1);
  }

  /** A throw in the first running step returns the source itself. */
  lemma OlderFirstFailureKeepsSource(lib: HalconLib, cv: CvLib, conv: VariantConv, src: Mat,
                                     queue: seq<AlgorithmStep>, k: nat)
    requires !Empty(src) && (src.channels == 1 || src.channels == 3)
    requires k < |queue| && Runs(queue[k])
    requires forall i :: 0 <= i < k ==> !Runs(queue[i])
    requires OlderStep(lib, cv, conv, src, queue[k]).Failure?
    ensures OlderQueueSpec(lib, cv, conv, src, queue) == src
  {
    assert !AnyRuns(queue[..k]) by {
      forall i | 0 <= i < k ensures !Runs(queue[..k][i]) {
        assert queue[..k][i] == queue[i];
      }
    }
    OlderFailureKeepsPrefix(lib, cv, conv, src, queue, k);
  }

  /** One more element of the queue: the fold of `queue[..k + 1]` from the
      fold of `queue[..k]`. */
  lemma OlderFoldNext(lib: HalconLib, cv: CvLib, conv: VariantConv, src: Mat, queue: seq<AlgorithmStep>, k: nat)
    requires !Empty(src) && (src.channels == 1 || src.channels == 3) && k < |queue|
    ensures var prev := OlderFold(lib, cv, conv, src, queue[..k]);
      OlderFold(lib, cv, conv, src, queue[..k + 1]) ==
      if prev.stopped || !Runs(queue[k]) then prev
      else
        match OlderStep(lib, cv, conv, prev.out, queue[k])
        case Failure => OlderQueue(prev.out, true)
        case Ok(next) => OlderQueue(next, false)
  {
    assert queue[..k + 1][..k] == queue[..k];
  }

  /** The body of the older step loop for one running step: the input
      made gray, converted to a region, the step applied, the result
      converted back; a throw is reported as a failure. */
  method OlderRunStep(lib: HalconLib, cv: CvLib, conv: VariantConv, input: Mat, step: AlgorithmStep)
    returns (r: Result<Mat>)
    requires !Empty(input) && (input.channels == 1 || input.channels == 3)
    ensures r == OlderStep(lib, cv, conv, input, step)
  {
    var gray: Mat;
    if input.channels == 3 {
      gray := BgrToGray(cv, input);
    } else {
      gray := input;
    }
    var converted := MatToHRegion(lib, gray);
    if converted.Failure? {
      return Failure;
    }
    var result := Execute(lib, conv, converted.value, step);
    if result.Failure? {
      return Failure;
    }
    return Ok(HRegionToMat(lib, result.value, gray.cols, gray.rows));
  }

  /** The older `imageprocessor::executeAlgorithmQueue`, following the
      source: `first` tells whether a step has run yet, `working` holds the
      last step's mask. */
  method OlderExecuteAlgorithmQueue(lib: HalconLib, cv: CvLib, conv: VariantConv, src: Mat, queue: seq<AlgorithmStep>)
    returns (out: Mat)
    requires !Empty(src) ==> src.channels == 1 || src.channels == 3
    ensures out == OlderQueueSpec(lib, cv, conv, src, queue)
  {
    if Empty(src) {
      return src;
    }
    var working: Mat := EmptyMat;
    var first := true;
    var k := 0;
    while k < |queue|
      invariant 0 <= k <= |queue|
      invariant OlderFold(lib, cv, conv, src, queue[..k]) == OlderQueue(if first then src else working, false)
    {
      var step := queue[k];
      var input := if first then src else working;
      OlderFoldNext(lib, cv, conv, src, queue, k);
      if step.enabled && step.kind == HalconKind {
        var result := OlderRunStep(lib, cv, conv, input, step);
        if result.Failure? {
          assert OlderFold(lib, cv, conv, src, queue[..k + 1]) == OlderQueue(input, true);
          OlderStoppedPersists(lib, cv, conv, src, queue, k + 1);
          return input;
        }
        working := result.value;
        first := false;
      }
      k := k + 1;
    }
    assert queue[..|queue|] == queue;
    out := if first then src else working;
  }

  /** Idle steps leave the older fold alone: folding the queue is folding
      only its running steps. */
  lemma {:induction false} OlderFoldSkipsIdleSteps(lib: HalconLib, cv: CvLib, conv: VariantConv, src: Mat,
                                                  queue: seq<AlgorithmStep>)
    requires !Empty(src) && (src.channels == 1 || src.channels == 3)
    ensures OlderFold(lib, cv, conv, src, queue) == OlderFold(lib, cv, conv, src, RunningSteps(queue))
    decreases |queue|
  {
    if queue != [] {
      var front := queue[..|queue| - 1];
      var last := queue[|queue| - 1];
      OlderFoldSkipsIdleSteps(lib, cv, conv, src, front);
      if Runs(last) {
        var rs := RunningSteps(front);
        assert RunningSteps(queue) == rs + [last];
        assert (rs + [last])[..|rs|] == rs;
      }
    }
  }

  /** With at most one running step the older and the newer queue agree on
      a gray input: both convert once, apply that step and convert back, and
      on a throw both return the input. */
  lemma OneRunningStepQueuesAgree(lib: HalconLib, cv: CvLib, conv: VariantConv, src: Mat, queue: seq<AlgorithmStep>)
    requires !Empty(src) && src.channels == 1 && |RunningSteps(queue)| <= 1
    ensures OlderQueueSpec(lib, cv, conv, src, queue) == QueueSpec(lib, cv, conv, src, queue)
  {
    OlderFoldSkipsIdleSteps(lib, cv, conv, src, queue);
    var rs := RunningSteps(queue);
    if rs == [] {
      forall i | 0 <= i < |queue|
        ensures !Runs(queue[i])
      {
        assert queue[i] in queue;
      }
    } else {
      var step := rs[0];
      assert rs == [step];
      assert step in queue && Runs(step);
      assert AnyRuns(queue) by {
        var i :| 0 <= i < |queue| && queue[i] == step;
      }
      assert [step][..0] == [];
      assert OlderFold(lib, cv, conv, src, [step]) ==
        match OlderStep(lib, cv, conv, src, step)
        case Failure => OlderQueue(src, true)
        case Ok(next) => OlderQueue(next, false);
      match MatToHRegion(lib, src)
      case Failure =>
      case Ok(region) =>
        FoldSkipsIdleSteps(lib, conv, region, queue);
        assert Fold(lib, conv, region, [step]) == Execute(lib, conv, region, step);
    }
  }

  // ------------------------------------------------- queue step, older run

  /** `StepAlgorithmQueue::run` with the older processor: the same guards,
      input and assignments as the newer step, but the older queue runs. */
  function OlderQueueStep(env: Env, queue: seq<AlgorithmStep>, c: Ctx): (r: Ctx)
    requires Wf(c)
    ensures Wf(r)
    ensures r.(processed := c.processed, reason := c.reason) == c
    ensures queue == [] || Empty(QueueInput(env.cv, c)) ==> r == c
    ensures queue != [] && !Empty(QueueInput(env.cv, c)) ==>
      r.processed == OlderQueueSpec(env.lib, env.cv, env.conv, QueueInput(env.cv, c), queue) &&
      r.reason == QueueReason(|queue|)
  {
    if queue == [] then c
    else
      var input := QueueInput(env.cv, c);
      if Empty(input) then c
      else
        var result := OlderQueueSpec(env.lib, env.cv, env.conv, input, queue);
        if Empty(result) then c
        else c.(processed := result, reason := QueueReason(|queue|))
  }

  /** With at most one running step the older queue step is the newer one. */
  lemma OlderQueueStepAgrees(env: Env, queue: seq<AlgorithmStep>, c: Ctx)
    requires Wf(c) && |RunningSteps(queue)| <= 1
    ensures OlderQueueStep(env, queue, c) == AlgorithmQueueStep(env, queue, c)
  {
    var input := QueueInput(env.cv, c);
    if queue != [] && !Empty(input) {
      OneRunningStepQueuesAgree(env.lib, env.cv, env.conv, input, queue);
    }
  }

  /** One step of the older pipeline: the queue step runs the older queue,
      every other step is the one of `pipeline_steps.h`. No step touches the
      source, the display configuration, the region list or the verdict. */
  function OlderStepSpec(env: Env, cfg: Config, queue: seq<AlgorithmStep>, k: StepKind, c: Ctx): (r: Ctx)
    requires Wf(c)
    ensures Wf(r)
    ensures r.srcBgr == c.srcBgr && r.display == c.display && r.regions == c.regions && r.pass == c.pass
    ensures !WritesProcessed(k) ==> r.processed == c.processed
  {
    if k == StepAlgorithmQueue then OlderQueueStep(env, queue, c) else StepSpec(env, cfg, queue, k, c)
  }

  /** The steps of a list applied in order by the older pipeline. */
  function OlderRunAll(env: Env, cfg: Config, queue: seq<AlgorithmStep>, steps: seq<StepKind>, c: Ctx): (r: Ctx)
    requires Wf(c)
    ensures Wf(r)
    ensures r.srcBgr == c.srcBgr && r.display == c.display && r.regions == c.regions && r.pass == c.pass
    decreases |steps|
  {
    if steps == [] then c
    else OlderStepSpec(env, cfg, queue, steps[|steps| - 1], OlderRunAll(env, cfg, queue, steps[..|steps| - 1], c))
  }

  /** Running one more step of a list after its first `i`, in the older pipeline. */
  lemma OlderRunAllNext(env: Env, cfg: Config, queue: seq<AlgorithmStep>, steps: seq<StepKind>, i: nat, c: Ctx)
    requires Wf(c) && i < |steps|
    ensures OlderRunAll(env, cfg, queue, steps[..i + 1], c) ==
      OlderStepSpec(env, cfg, queue, steps[i], OlderRunAll(env, cfg, queue, steps[..i], c))
  {
    assert steps[..i + 1][..i] == steps[..i];
  }

  /** With at most one running step in the queue, the older run of any step
      list is the newer run of it. */
  lemma {:induction false} OlderRunAllAgrees(env: Env, cfg: Config, queue: seq<AlgorithmStep>, steps: seq<StepKind>,
                                             c: Ctx)
    requires Wf(c) && |RunningSteps(queue)| <= 1
    ensures OlderRunAll(env, cfg, queue, steps, c) == RunAll(env, cfg, queue, steps, c)
    decreases |steps|
  {
    if steps != [] {
      var front := steps[..|steps| - 1];
      OlderRunAllAgrees(env, cfg, queue, front, c);
      OlderQueueStepAgrees(env, queue, RunAll(env, cfg, queue, front, c));
    }
  }

  /** `StepAlgorithmQueue::run` on a context object, with the older
      processor's `executeAlgorithmQueue`. */
  method OlderRunAlgorithmQueue(env: Env, queue: seq<AlgorithmStep>, ctx: PipelineContext)
    requires Wf(ctx.Snapshot())
    modifies ctx
    ensures ctx.Snapshot() == OlderQueueStep(env, queue, old(ctx.Snapshot()))
  {
    if queue == [] {
      return;
    }
    var input: Mat;
    if !Empty(ctx.mask) {
      input := ctx.mask;
    } else if !Empty(ctx.enhanced) {
      input := if ctx.enhanced.channels == 3 then BgrToGray(env.cv, ctx.enhanced) else ctx.enhanced;
    } else {
      input := if ctx.srcBgr.channels == 3 then BgrToGray(env.cv, ctx.srcBgr) else ctx.srcBgr;
    }
    if Empty(input) {
      return;
    }
    var result := OlderExecuteAlgorithmQueue(env.lib, env.cv, env.conv, input, queue);
    if !Empty(result) {
      ctx.processed := result;
      ctx.reason := QueueReason(|queue|);
    }
  }

  /** One step of the older pipeline on a context object. */
  method OlderPipelineStep(env: Env, cfg: PipelineConfig, queue: seq<AlgorithmStep>, k: StepKind, ctx: PipelineContext)
    requires Wf(ctx.Snapshot())
    modifies ctx
    ensures ctx.Snapshot() == OlderStepSpec(env, cfg.Value(), queue, k, old(ctx.Snapshot()))
  {
    if k == StepAlgorithmQueue {
      OlderRunAlgorithmQueue(env, queue, ctx);
    } else {
      RunStep(env, cfg, queue, k, ctx);
    }
  }

  /** `Pipeline::run` of the older manager, whose steps hold the older
      processor: every step in list order on the same context. */
  method OlderPipelineRun(env: Env, cfg: PipelineConfig, queue: seq<AlgorithmStep>, p: Pipeline, ctx: PipelineContext)
    requires Wf(ctx.Snapshot())
    modifies ctx
    ensures ctx.Snapshot() == OlderRunAll(env, cfg.Value(), queue, p.steps, old(ctx.Snapshot()))
  {
    var i := 0;
    while i < |p.steps|
      invariant 0 <= i <= |p.steps|
      invariant Wf(ctx.Snapshot())
      invariant ctx.Snapshot() == OlderRunAll(env, cfg.Value(), queue, p.steps[..i], old(ctx.Snapshot()))
    {
      OlderRunAllNext(env, cfg.Value(), queue, p.steps, i, old(ctx.Snapshot()));
      OlderPipelineStep(env, cfg, queue, p.steps[i], ctx);
      i := i + 1;
    }
    assert p.steps[..i] == p.steps;
  }

  // ------------------------------------------------------------ display

  /** The shapes the older display can render: a processed image of 1 or 3
      channels, a single-channel mask, an enhanced image of 1 or 3 channels. */
  predicate OlderDisplayable(c: Ctx)
  {
    (Empty(c.processed) || c.processed.channels == 1 || c.processed.channels == 3) &&
    (Empty(c.mask) || c.mask.channels == 1) &&
    (Empty(c.enhanced) || c.enhanced.channels == 1 || c.enhanced.channels == 3)
  }

  /** The older `getFinalDisplay`: no display mode, one priority chain. The
      processed image (green/white when single-channel), else the mask in
      green/white, else the enhanced image in colour, else the source. What
      is shown is the source or a colour image. */
  function OlderFinalDisplay(c: Ctx): (r: Mat)
    requires OlderDisplayable(c)
    ensures r == c.srcBgr || r.channels == 3
    ensures !Empty(c.processed) ==> SameSize(r, c.processed)
    ensures Empty(c.processed) && !Empty(c.mask) ==> SameSize(r, c.mask)
  {
    if !Empty(c.processed) then
      (if c.processed.channels == 1 then GreenWhite(c.processed) else c.processed)
    else if !Empty(c.mask) then GreenWhite(c.mask)
    else if !Empty(c.enhanced) then AsColour(c.enhanced)
    else c.srcBgr
  }

  /** Without a processed image and a mask nothing is shown in green/white:
      the display is the enhanced image in colour, or the source. */
  lemma OlderNoMaskNoGreenWhite(c: Ctx)
    requires OlderDisplayable(c) && Empty(c.processed) && Empty(c.mask)
    ensures OlderFinalDisplay(c) == (if !Empty(c.enhanced) then AsColour(c.enhanced) else c.srcBgr)
  {
  }

  /** A single-channel processed image wins over the mask, whatever it holds;
      a green pixel marks a 0 byte of the processed image. */
  lemma OlderProcessedWins(c: Ctx, y: int, x: int)
    requires OlderDisplayable(c) && !Empty(c.processed) && c.processed.channels == 1
    requires 0 <= y < c.processed.rows && 0 <= x < c.processed.cols
    ensures OlderFinalDisplay(c) == GreenWhite(c.processed)
    ensures OlderFinalDisplay(c).px[y][x] == [0, 255, 0] <==> c.processed.px[y][x][0] == 0
  {
  }

  /** On a context the newer steps produce, the older chain shows what the
      newer green/white mode shows whenever there is a processed image or a
      mask. */
  lemma OlderChainIsGreenWhiteMode(c: Ctx)
    requires Wf(c) && 0.0 <= c.display.overlayAlpha <= 1.0
    requires c.display.mode == MaskGreenWhite && (!Empty(c.processed) || !Empty(c.mask))
    ensures OlderDisplayable(c) && OlderFinalDisplay(c) == FinalDisplay(c)
  {
  }

  // ------------------------------------------------------------ manager

  /** The five steps of the older `initPipeline`: no colour filter. */
  function OlderSteps(): (s: seq<StepKind>)
    ensures |s| == 5 && StepColorFilter !in s
    ensures s == StandardSteps()[..3] + StandardSteps()[4..]
  {
    [StepColorChannel, StepEnhance, StepGrayFilter, StepAlgorithmQueue, StepShapeFilter]
  }

  /** The older `PipelineManager`: no display settings and no `update` of a
      queue entry; `execute` starts from a default context. */
  class OlderPipelineManager {
    const env: Env
    var config: PipelineConfig
    var pipeline: Pipeline
    var queue: seq<AlgorithmStep>
    var lastContext: PipelineContext

    /** The pipeline holds the five older steps and the last context is one
        the steps accept. */
    predicate Valid()
      reads this, pipeline, lastContext
    {
      pipeline.steps == OlderSteps() && Wf(lastContext.Snapshot())
    }

    /** The constructor: the enhancement reset of the configuration, then the
        five-step pipeline. */
    constructor (e: Env)
      ensures Valid() && env == e
      ensures config.Value() == DefaultConfig().(brightness := 0, contrast := 1.0, gamma := 1.0,
                                                 sharpen := 1.0, enableGrayFilter := false)
      ensures queue == [] && lastContext.Snapshot() == DefaultCtx()
      ensures fresh(config) && fresh(config.shapeFilter) && fresh(pipeline) && fresh(lastContext)
    {
      env := e;
      config := new PipelineConfig();
      pipeline := new Pipeline();
      queue := [];
      lastContext := new PipelineContext();
      new;
      config.ResetEnhancement();
      InitPipeline();
    }

    /** The older `initPipeline`: a new pipeline holding the five steps. */
    method InitPipeline()
      modifies this
      ensures pipeline.steps == OlderSteps() && fresh(pipeline)
      ensures config == old(config) && queue == old(queue) && lastContext == old(lastContext)
    {
      var p := new Pipeline();
      p.Add(StepColorChannel);
      p.Add(StepEnhance);
      p.Add(StepGrayFilter);
      p.Add(StepAlgorithmQueue);
      p.Add(StepShapeFilter);
      pipeline := p;
    }

    /** `addAlgorithmStep`: appends. */
    method AddAlgorithmStep(step: AlgorithmStep)
      modifies this
      ensures queue == old(queue) + [step]
      ensures config == old(config) && pipeline == old(pipeline) && lastContext == old(lastContext)
    {
      queue := queue + [step];
    }

    /** `removeAlgorithmStep`: acts only on an index inside the queue. */
    method RemoveAlgorithmStep(index: int)
      modifies this
      ensures 0 <= index < |old(queue)| ==> queue == Removed(old(queue), index)
      ensures !(0 <= index < |old(queue)|) ==> queue == old(queue)
      ensures config == old(config) && pipeline == old(pipeline) && lastContext == old(lastContext)
    {
      if index >= 0 && index < |queue| {
        queue := queue[..index] + queue[index + 1..];
      }
    }

    /** `swapAlgorithmStep`: only the upper bounds are checked, so callers
        must not pass a negative index alongside in-range ones. */
    method SwapAlgorithmStep(index1: int, index2: int)
      requires index1 < |queue| && index2 < |queue| ==> 0 <= index1 && 0 <= index2
      modifies this
      ensures index1 < |old(queue)| && index2 < |old(queue)| ==> queue == Swapped(old(queue), index1, index2)
      ensures !(index1 < |old(queue)| && index2 < |old(queue)|) ==> queue == old(queue)
      ensures multiset(queue) == multiset(old(queue))
      ensures config == old(config) && pipeline == old(pipeline) && lastContext == old(lastContext)
    {
      if index1 < |queue| && index2 < |queue| {
        SwappedPermutes(queue, index1, index2);
        var a, b := queue[index1], queue[index2];
        queue := queue[index1 := b][index2 := a];
      }
    }

    /** `clearAlgorithmQueue`. */
    method ClearAlgorithmQueue()
      modifies this
      ensures queue == []
      ensures config == old(config) && pipeline == old(pipeline) && lastContext == old(lastContext)
    {
      queue := [];
    }

    /** The first half of the older `execute`: the last context becomes a
        default context holding the input. */
    method PrepareContext(input: Mat)
      modifies lastContext
      ensures lastContext.Snapshot() == DefaultCtx().(srcBgr := input)
    {
      lastContext.display := DefaultDisplay();
      lastContext.srcBgr := EmptyMat;
      lastContext.channelImg := EmptyMat;
      lastContext.enhanced := EmptyMat;
      lastContext.mask := EmptyMat;
      lastContext.processed := EmptyMat;
      lastContext.regions := [];
      lastContext.currentRegions := 0;
      lastContext.pass := true;
      lastContext.reason := "";
      lastContext.srcBgr := input;
    }

    /** The older `execute`. An empty input returns a default context and
        leaves the last one alone. Otherwise the last context becomes a
        default one holding the input, and the five steps run on it. */
    method Execute(input: Mat) returns (result: Ctx, message: Option<string>)
      requires Valid()
      requires !Empty(input) ==> input.channels == 3
      modifies lastContext
      ensures Valid()
      ensures Empty(input) ==>
        result == DefaultCtx() && message == None && lastContext.Snapshot() == old(lastContext.Snapshot())
      ensures !Empty(input) ==>
        result == lastContext.Snapshot() &&
        result == OlderRunAll(env, config.Value(), queue, OlderSteps(), DefaultCtx().(srcBgr := input)) &&
        message == Some(FinishedMessage(result.reason))
    {
      if Empty(input) {
        return DefaultCtx(), None;
      }
      PrepareContext(input);
      OlderPipelineRun(env, config, queue, pipeline, lastContext);
      result := lastContext.Snapshot();
      message := Some(FinishedMessage(result.reason));
    }
  }

  /** The older pipeline is the newer one with the colour filter switched
      off, as long as at most one step of the queue runs. With two or more
      running steps the two queues differ: the older one converts between
      steps and keeps the last mask on a throw (`OlderFailureKeepsPrefix`),
      the newer one returns the gray input (`QueueFailureGivesGray`). */
  lemma {:induction false} OlderRunIsStandardWithoutColour(env: Env, cfg: Config, queue: seq<AlgorithmStep>, c: Ctx)
    requires Wf(c)
    requires !cfg.enableColorFilter || cfg.colorFilterMode == NoColorFilter
    requires |RunningSteps(queue)| <= 1
    ensures OlderRunAll(env, cfg, queue, OlderSteps(), c) == RunAll(env, cfg, queue, StandardSteps(), c)
  {
    OlderRunAllAgrees(env, cfg, queue, OlderSteps(), c);
    StandardRunWithoutColour(env, cfg, queue, c);
  }

  /** With the colour filter switched off, dropping its step from the newer
      step list changes nothing. */
  lemma StandardRunWithoutColour(env: Env, cfg: Config, queue: seq<AlgorithmStep>, c: Ctx)
    requires Wf(c)
    requires !cfg.enableColorFilter || cfg.colorFilterMode == NoColorFilter
    ensures RunAll(env, cfg, queue, OlderSteps(), c) == RunAll(env, cfg, queue, StandardSteps(), c)
  {
    var s := StandardSteps();
    var head, tail := s[..3], s[4..];
    var withColour := head + [StepColorFilter];
    assert s == withColour + tail;
    assert withColour[..|withColour| - 1] == head;
    var mid := RunAll(env, cfg, queue, head, c);
    assert RunAll(env, cfg, queue, withColour, c) == StepSpec(env, cfg, queue, StepColorFilter, mid);
    assert StepSpec(env, cfg, queue, StepColorFilter, mid) == mid;
    RunAllAppend(env, cfg, queue, head, tail, c);
    RunAllAppend(env, cfg, queue, withColour, tail, c);
  }
}
