/** `Pipeline` (`include/pipeline.h`): an ordered list of steps run one after
    the other on one context. The steps refer to the manager's
    configuration and algorithm queue, so a run sees their values at the
    time of the run; here they are passed to `Run`. */
module Pipelines {
  import opened PipelineTypes
  import opened AlgorithmSteps
  import opened PipelineSteps

  /** The step classes of `pipeline_steps.h`. */
  datatype StepKind =
    StepColorChannel | StepEnhance | StepGrayFilter | StepColorFilter | StepAlgorithmQueue | StepShapeFilter

  /** The two steps that write the processed image. */
  predicate WritesProcessed(k: StepKind)
  {
    k == StepAlgorithmQueue || k == StepShapeFilter
  }

  /** What one step does to a context value. */
  function StepSpec(env: Env, cfg: Config, queue: seq<AlgorithmStep>, k: StepKind, c: Ctx): (r: Ctx)
    requires Wf(c)
    ensures Wf(r)
    ensures r.srcBgr == c.srcBgr && r.display == c.display && r.regions == c.regions && r.pass == c.pass
    ensures !WritesProcessed(k) ==> r.processed == c.processed
  {
    match k
    case StepColorChannel => ColorChannelStep(env.cv, cfg, c)
    case StepEnhance => EnhanceStep(env.cv, cfg, c)
    case StepGrayFilter => GrayFilterStep(env.lib, env.cv, cfg, c)
    case StepColorFilter => ColorFilterStep(env.cv, cfg, c)
    case StepAlgorithmQueue => AlgorithmQueueStep(env, queue, c)
    case StepShapeFilter => ShapeFilterStep(env, cfg, c)
  }

  /** The steps of a list applied in order. No step touches the source
      image, the display configuration, the region list or the verdict. */
  function RunAll(env: Env, cfg: Config, queue: seq<AlgorithmStep>, steps: seq<StepKind>, c: Ctx): (r: Ctx)
    requires Wf(c)
    ensures Wf(r)
    ensures r.srcBgr == c.srcBgr && r.display == c.display && r.regions == c.regions && r.pass == c.pass
    ensures (forall i :: 0 <= i < |steps| ==> !WritesProcessed(steps[i])) ==> r.processed == c.processed
    decreases |steps|
  {
    if steps == [] then c
    else StepSpec(env, cfg, queue, steps[|steps| - 1], RunAll(env, cfg, queue, steps[..|steps| - 1], c))
  }

  /** Running one more step of a list after its first `i`. */
  lemma RunAllNext(env: Env, cfg: Config, queue: seq<AlgorithmStep>, steps: seq<StepKind>, i: nat, c: Ctx)
    requires Wf(c) && i < |steps|
    ensures RunAll(env, cfg, queue, steps[..i + 1], c) ==
      StepSpec(env, cfg, queue, steps[i], RunAll(env, cfg, queue, steps[..i], c))
  {
    assert steps[..i + 1][..i] == steps[..i];
  }

  /** Running two lists one after the other is running their concatenation. */
  lemma {:induction false} RunAllAppend(env: Env, cfg: Config, queue: seq<AlgorithmStep>,
                                        a: seq<StepKind>, b: seq<StepKind>, c: Ctx)
    requires Wf(c)
    ensures RunAll(env, cfg, queue, a + b, c) == RunAll(env, cfg, queue, b, RunAll(env, cfg, queue, a, c))
    decreases |b|
  {
    if b == [] {
      assert a + b == a;
    } else {
      var front := b[..|b| - 1];
      assert (a + b)[..|a + b| - 1] == a + front;
      RunAllAppend(env, cfg, queue, a, front, c);
    }
  }

  /** Runs one step on a context object. */
  method RunStep(env: Env, cfg: PipelineConfig, queue: seq<AlgorithmStep>, k: StepKind, ctx: PipelineContext)
    requires Wf(ctx.Snapshot())
    modifies ctx
    ensures ctx.Snapshot() == StepSpec(env, cfg.Value(), queue, k, old(ctx.Snapshot()))
  {
    match k
    case StepColorChannel => RunColorChannel(env, cfg, ctx);
    case StepEnhance => RunEnhance(env, cfg, ctx);
    case StepGrayFilter => RunGrayFilter(env, cfg, ctx);
    case StepColorFilter => RunColorFilter(env, cfg, ctx);
    case StepAlgorithmQueue => RunAlgorithmQueue(env, queue, ctx);
    case StepShapeFilter => RunShapeFilter(env, cfg, ctx);
  }

  /** `Pipeline`: its list of steps. */
  class Pipeline {
    var steps: seq<StepKind>

    /** An empty pipeline. */
    constructor ()
      ensures steps == []
    {
      steps := [];
    }

    /** `add`: the step goes to the end. */
    method Add(k: StepKind)
      modifies this
      ensures steps == old(steps) + [k]
    {
      steps := steps + [k];
    }

    /** `run`: every step in list order on the same context. */
    method Run(env: Env, cfg: PipelineConfig, queue: seq<AlgorithmStep>, ctx: PipelineContext)
      requires Wf(ctx.Snapshot())
      modifies ctx
      ensures ctx.Snapshot() == RunAll(env, cfg.Value(), queue, steps, old(ctx.Snapshot()))
    {
      var i := 0;
      while i < |steps|
        invariant 0 <= i <= |steps|
        invariant Wf(ctx.Snapshot())
        invariant ctx.Snapshot() == RunAll(env, cfg.Value(), queue, steps[..i], old(ctx.Snapshot()))
      {
        RunAllNext(env, cfg.Value(), queue, steps, i, old(ctx.Snapshot()));
        RunStep(env, cfg, queue, steps[i], ctx);
        i := i + 1;
      }
      assert steps[..i] == steps;
    }
  }
}
