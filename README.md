# MyTool image-inspection pipeline in Dafny

This project models the processing core of MyTool, a Qt desktop tool for
inspecting images. The tool uses OpenCV rasters and Halcon regions.

## What is modelled

- **The pipeline.** An image goes through six steps in a fixed order:
  1. channel selection;
  2. tone enhancement;
  3. gray threshold;
  4. colour filter;
  5. a user-edited queue of Halcon morphology operators;
  6. a multi-condition shape filter.

  Each step reads and writes one mutable `PipelineContext`. The manager owns the configuration and the queue. It prepares a fresh context for each run and keeps the last one.
- **The display.** The context describes what is shown: the mode, with fallbacks between the context's images, and the green/white recoding of masks.
- **The rules around the pipeline:**
  - shape-filter conditions and their configuration;
  - the Halcon operator dispatch with its parameter guards;
  - the region analysis inside a polygon;
  - the raster/region conversions and their `0 = inside` polarity;
  - the planar/interleaved buffer layouts;
  - the label-to-image rectangle mapping;
  - the undo history of the enhancement tab;
  - the channel switch of the image tab;
  - the ROI manager.
- **The older snapshot at the repository root.** This is modelled as a variant:
  - a queue that converts on every step and keeps partial results on failure;
  - a fixed-priority display;
  - a five-step pipeline without the colour filter;
  - a ROI manager that stores the current image.

### How the model is built

- **Rasters** are `Raster.Mat` values: rows × cols pixels, each a sequence of channel bytes.
- **Regions** are tuples of pixel sets.
- **Foreign calls are parameters.**
  - OpenCV numerics are fields of `CvLib`: BGR→gray and BGR→HSV of one pixel, and the enhancement.
  - Halcon's region operators are fields of `HalconLib`: connection, morphology, fill-up, shape transformation, region features and polygon rasterisation.
  - Whether a Halcon call throws is decided by `HalconLib.fails`, applied to a description of the call.
  - The `QVariant` cross-type conversions are fields of `VariantConv`.
  - Number formatting is a parameter.
- **Computed exactly:** thresholding, `SelectShape`, unions, intersections, `inRange`, `bitwise_and` and the green/white recoding.
- **Classes mirror the source's classes.** Mutable objects are Dafny classes: `PipelineConfig`, `PipelineContext`, `Pipeline`, `PipelineManager`, `ShapeFilterConfig`, the two tab controllers and the two `RoiManager`s.
  - Their methods are proved against value-level specification functions. For example, each step's `Run…` method ends in the state its `…Step` function computes.
  - A context invariant `PipelineSteps.Wf` states what every step preserves: the source is empty or has 3 channels, every artifact is empty or has the source's size, and the mask and processed image have one channel.

In a few places the code does not do what its defaults suggest. The model follows the code:

- `resetEnhancement` sets sharpening to 1.0, while the default is 0.0.
- `setOverlayAlpha` has an empty body, so the opacity of a run is always 0.3.
- `handleUndo` never refreshes the undo button.
- The older manager builds the step classes of `pipeline_steps.h` around its own processor, so its queue step runs the older per-step `executeAlgorithmQueue` (`Legacy.OlderQueueStep`), not the newer single-conversion queue.

In the older snapshot, several parts are identical to the newer code and share its members:

- `filterRGB` and `filterHSV` (`image_processor.cpp:104-176`) are `ImageProcessor.FilterRGB` and `ImageProcessor.FilterHSV`.
- `PipelineConfig` with its defaults, `syncConfigFromUI` and `resetEnhancement` (`pipeline.h:18-64`) is `PipelineTypes.PipelineConfig` with the fields the older struct lacks left unused: `enableColorFilter`, `colorFilterMode`, `currentFilterMode` and the RGB and HSV ranges. The five steps the older manager builds never read them: `Legacy.OlderSteps` holds no colour-filter step.
- `Pipeline::add` and `Pipeline::run` (`pipeline.h:100-109`) belong to `Pipelines.Pipeline`.
- `maskToGreenWhite` (`pipeline.cpp:5-42`) is `Display.GreenWhite`.
- The Halcon dispatch and its operators (`halcon_algorithm.cpp:7-170`) are the `HalconAlgorithm` members.

## Model

| member | source | states |
|---|---|---|
| AlgorithmSteps.Tag | image_processor.h:23-38 | every operator enumerator has a value below 13, in declaration order |
| AlgorithmSteps.AlgoTypeOf | src/halcon_algorithm.cpp:13-15 | the cast from the integer tag names an enumerator exactly for 0..12 |
| AlgorithmSteps.TagRoundTrip | image_processor.h:23-38 | the cast and the enumerator values are mutually inverse |
| AlgorithmSteps.ToInt | src/halcon_algorithm.cpp:13-15 | a missing parameter reads as 0, an integer as itself |
| AlgorithmSteps.ToReal | src/halcon_algorithm.cpp:21 | an integer converts exactly, a double is itself, a missing value is 0 |
| AlgorithmSteps.ToText | src/halcon_algorithm.cpp:82 | text is itself, a missing value is the empty string |
| AlgorithmSteps.Get | src/halcon_algorithm.cpp:13-15 | `params[key]` is the stored value, or invalid when the key is absent |
| AlgorithmSteps.ValueOr | src/halcon_algorithm.cpp:21-28 | `params.value(key, d)` is the stored value, or `d` when the key is absent |
| AlgorithmSteps.NewStep | image_processor.h:41-48 | a new step is enabled, and it runs exactly when its type is "HalconAlgorithm" |
| ShapeFilterTypes.FeatureName | include/shape_filter_types.h:28-43 | total and non-empty; "area" exactly for the Area feature |
| ShapeFilterTypes.FeatureNameInjective | include/shape_filter_types.h:28-43 | distinct features get distinct Halcon names |
| ShapeFilterTypes.DisplayName | include/shape_filter_types.h:48-63 | every feature has a proper 2- or 3-character label, never the "unknown" fallback |
| ShapeFilterTypes.DefaultCondition | include/shape_filter_types.h:75-80 | the default condition is area in [0, 1e18] and disabled, hence not valid |
| ShapeFilterTypes.NewCondition | include/shape_filter_types.h:82-93 | the 3-argument condition is enabled, and valid iff 0 ≤ min ≤ max |
| ShapeFilterTypes.ConditionText | include/shape_filter_types.h:96-102 | a condition's text starts with its feature label |
| ShapeFilterTypes.ValidConditions | include/shape_filter_types.h:147-154 | the valid conditions: exactly the list's members that are valid |
| ShapeFilterTypes.ValidConditionsAppend | include/shape_filter_types.h:147-154 | the filter keeps list order: it distributes over concatenation, and one condition is kept iff it is valid |
| ShapeFilterTypes.CountValidAppend | include/shape_filter_types.h:134-137 | appending a condition adds one to the valid count exactly when it is valid |
| ShapeFilterTypes.CountValidPositive | include/shape_filter_types.h:157-160 | the valid count is positive iff some condition is valid |
| ShapeFilterTypes.Texts | include/shape_filter_types.h:168-172 | the list of condition texts, one per condition, in order |
| ShapeFilterTypes.HasValidConditionsIff | include/shape_filter_types.h:157-160 | `hasValidConditions` iff enabled and some condition is valid |
| ShapeFilterTypes.JoinStartsWithFirst | include/shape_filter_types.h:176-179 | a non-empty join begins with its first part |
| ShapeFilterTypes.ToStringCases | include/shape_filter_types.h:163-180 | the fixed "not enabled" text iff nothing is in force; otherwise the valid conditions joined by the mode's separator, and a single valid condition's text alone |
| ShapeFilterTypes.ShapeFilterConfig.constructor | include/shape_filter_types.h:128-131 | no condition, AND mode, disabled, so nothing is in force |
| ShapeFilterTypes.ShapeFilterConfig.AddCondition | include/shape_filter_types.h:134-137 | appends at the end, keeps earlier conditions and the mode, and the valid count grows iff the condition is valid |
| ShapeFilterTypes.ShapeFilterConfig.Clear | include/shape_filter_types.h:140-144 | no conditions and disabled, so `hasValidConditions` is false afterwards |
| ShapeFilterTypes.ShapeFilterConfig.GetEnabledCount | include/shape_filter_types.h:147-154 | the counting loop returns the number of valid conditions, at most the list length |
| Raster.Uniform | image_utils.cpp:221 | a one-channel raster of the given size, every pixel the given value |
| Raster.HsvPixel | pipeline_steps.h:28 | BGR2HSV of one pixel gives three channels |
| Raster.AdjustedPixel | src/image_processor.cpp:114-135 | an enhanced pixel keeps the channel count |
| Raster.BgrToGray | pipeline_steps.h:22 | same size, one channel, each pixel converted on its own |
| Raster.BgrToHsv | pipeline_steps.h:28 | same size, three channels, each pixel converted on its own |
| Raster.GrayToBgr | src/pipeline.cpp:58 | same size, three channels each repeating the gray value |
| Raster.SplitChannel | pipeline_steps.h:30-50 | plane k of the split: same size, one channel, byte k of every pixel |
| Raster.AdjustParameter | src/image_processor.cpp:114-135 | an empty input comes back as it is; otherwise size and channel count are kept |
| Raster.AndByte | pipeline_steps.h:365 | the byte AND is below both operands; 255 is its unit and 0 absorbs |
| Raster.AndOnes | pipeline_steps.h:365 | AND with an all-ones mask covering a value leaves the value |
| Raster.BitwiseAnd | pipeline_steps.h:365 | same size, one channel, each pixel the AND of the two |
| Raster.InRange | src/image_processor.cpp:166 | same size, one channel, 255 iff every channel lies within its bounds, else 0 |
| Raster.Crop | src/image_view.cpp:285-286 | the w×h block at (x, y), pixel by pixel |
| Halcon.Guarded | pipeline_steps.h:206-246 | a Halcon call fails exactly when the library throws on it, else gives its value |
| Halcon.ThresholdSet | pipeline_steps.h:114-117 | a pixel is selected iff its gray value lies in [low, high] |
| Halcon.Select | pipeline_steps.h:259-282 | `SelectShape` keeps exactly the objects meeting the range |
| Halcon.SelectAppend | pipeline_steps.h:269-274 | `SelectShape` keeps tuple order: it distributes over concatenation, and one object is kept iff it meets the range |
| Halcon.Areas | image_utils.cpp:228 | one area per object, its pixel count |
| HalconAlgorithm.CircleOperator | src/halcon_algorithm.cpp:92-114 | a negative radius returns the region; otherwise the morphology with a circle |
| HalconAlgorithm.RectOperator | src/halcon_algorithm.cpp:98-138 | a negative width or height returns the region; otherwise the morphology with a rectangle |
| HalconAlgorithm.Execute | src/halcon_algorithm.cpp:11-89 | no Halcon call leaves the region unchanged; the step fails iff its one Halcon call throws |
| HalconAlgorithm.ExecuteUndispatched | src/halcon_algorithm.cpp:86-87 | an unknown tag, or the SelectShapeArea tag, returns the region unchanged |
| HalconAlgorithm.ExecuteDefaults | src/halcon_algorithm.cpp:19-23 | with no parameters, tag 0 defaults to an opening with a circle of radius 3.5 |
| HalconAlgorithm.ParameterDefaults | src/halcon_algorithm.cpp:27-28 | absent sizes default to 5 × 5 and the shape transformation to "convex" |
| HalconAlgorithm.NegativeParameterIsIdentity | src/halcon_algorithm.cpp:92-138 | every morphology operator is the identity under a negative radius, width or height |
| HalconAlgorithm.UnguardedOperators | src/halcon_algorithm.cpp:140-158 | Union, Connection, FillUp and ShapeTrans always call Halcon and return its result |
| HalconAlgorithm.SelectShapeAreaOf | src/halcon_algorithm.cpp:160-174 | an invalid range or a throw returns the input; otherwise only connected components in range remain |
| HalconAlgorithm.SelectShapeAreaKeeps | src/halcon_algorithm.cpp:164-167 | without a throw, exactly the connected components whose area lies in range remain |
| HalconAlgorithm.Rows | src/halcon_algorithm.cpp:196-200 | the polygon's y coordinates, in order |
| HalconAlgorithm.Cols | src/halcon_algorithm.cpp:196-200 | the polygon's x coordinates, in order |
| HalconAlgorithm.Measure | src/halcon_algorithm.cpp:238-257 | index i, area = pixel count, width = col2 − col1, height = row2 − row1 |
| HalconAlgorithm.ScanStaysFailed | src/halcon_algorithm.cpp:268-273 | after a throw the component loop gathers nothing more |
| HalconAlgorithm.ScanSound | src/halcon_algorithm.cpp:221-261 | gathered features are in ascending index order, each for a component meeting the polygon in positive area |
| HalconAlgorithm.ScanComplete | src/halcon_algorithm.cpp:221-261 | without a throw, every component meeting the polygon in positive area is gathered |
| HalconAlgorithm.ScanPrefix | src/halcon_algorithm.cpp:260 | features are only appended: earlier results are a prefix of later ones |
| HalconAlgorithm.AnalyzeRegionsInPolygon | src/halcon_algorithm.cpp:177-275 | the loops compute the scan specification: empty for fewer than 3 vertices or an empty image, the gathered features on a throw |
| ImageProcessor.ToGray | src/image_processor.cpp:47-51 | same size and one channel; a gray input is kept |
| ImageProcessor.QueueSpec | src/image_processor.cpp:29-108 | source unchanged when it is empty, when nothing runs, or on a bad channel count; otherwise a non-empty 1-channel image of its size |
| ImageProcessor.FoldFailurePersists | src/image_processor.cpp:98-101 | a throw on a prefix of the queue fails the whole fold |
| ImageProcessor.FoldAppend | src/image_processor.cpp:64-83 | folding a concatenation folds the second part over the first's result |
| ImageProcessor.RunningSteps | src/image_processor.cpp:64-74 | the running steps: exactly the enabled Halcon steps of the queue |
| ImageProcessor.RunningStepsAppend | src/image_processor.cpp:64-74 | the running steps distribute over concatenation of queues |
| ImageProcessor.RunningStepsKeepsOrder | src/image_processor.cpp:64-74 | a step keeps its place among the running steps iff it runs: queue order is preserved |
| ImageProcessor.FoldSkipsIdleSteps | src/image_processor.cpp:64-74 | disabled and non-Halcon steps have no effect on the fold |
| ImageProcessor.QueueFailureGivesGray | src/image_processor.cpp:91-108 | a throw converting in or in any step returns the gray input, discarding applied steps |
| ImageProcessor.FoldOfCallFreeSteps | src/image_processor.cpp:59-83 | steps that make no Halcon call leave the region as converted |
| ImageProcessor.QueueOfCallFreeStepsKeepsMask | src/image_processor.cpp:59-96 | a {0,255} mask through call-free steps comes back unchanged (one conversion in, one out) |
| ImageProcessor.ExecuteAlgorithmQueue | src/image_processor.cpp:27-108 | the guard loop, the step loop and the conversions compute `QueueSpec` |
| ImageProcessor.HasValidStep | src/image_processor.cpp:31-39 | the guard loop reports a step exactly when some step of the queue is enabled and a Halcon step |
| ImageProcessor.ApplyQueue | src/image_processor.cpp:64-83 | the step loop on the region computes the fold of the queue, a throw in any step giving a failure |
| ImageProcessor.Clamp | src/image_processor.cpp:155-160 | `std::clamp` lies in range, keeps values in range, and maps outliers to the nearer end |
| ImageProcessor.ClampRange | src/image_processor.cpp:155-160 | after clamping, 0 ≤ low ≤ high ≤ top; an ordered in-range pair is kept |
| ImageProcessor.RgbBounds | src/image_processor.cpp:155-164 | B, G and R bounds ordered within [0,255], in BGR channel order |
| ImageProcessor.HsvBounds | src/image_processor.cpp:196-205 | H bounds ordered within [0,179], S and V within [0,255] |
| ImageProcessor.FilterRGB | src/image_processor.cpp:137-169 | empty for an empty or non-1/3-channel input; otherwise a {0,255} mask of the input's size |
| ImageProcessor.FilterHSV | src/image_processor.cpp:171-209 | empty for an empty or non-1/3-channel input; otherwise a {0,255} mask of the input's size |
| ImageProcessor.FilterRGBColour | src/image_processor.cpp:155-166 | a colour pixel maps to 255 iff B, G and R each lie within their clamped bounds |
| ImageProcessor.FilterRGBGray | src/image_processor.cpp:145-147 | a gray pixel maps to 255 iff its value lies in all three clamped ranges |
| ImageProcessor.FilterHSVPixel | src/image_processor.cpp:180-207 | a pixel maps to 255 iff its H, S and V lie within the clamped bounds |
| ImageUtils.Invert | image_utils.cpp:198-199 | `bitwise_not`: every byte v becomes 255 − v |
| ImageUtils.NonWhite | image_utils.cpp:195-212 | exactly the pixels whose value is not 255 |
| ImageUtils.MatToHRegion | image_utils.cpp:176-213 | needs a non-empty 1-channel input; fails iff the threshold throws; the region is exactly the pixels ≠ 255 |
| ImageUtils.Render | image_utils.cpp:237 | `RegionToBin(0,255)`: the requested size, 0 on region pixels, 255 elsewhere |
| ImageUtils.HRegionToMat | image_utils.cpp:215-313 | 1×1 for a non-positive frame, otherwise the requested size; always a non-empty {0,255} mask |
| ImageUtils.HRegionToMatFailure | image_utils.cpp:243-312 | every failure path gives an all-zero image of the requested size |
| ImageUtils.HRegionToMatFirstObjectDecides | image_utils.cpp:228-234 | an empty tuple, or an empty first object, gives an all-255 image |
| ImageUtils.HRegionToMatPolarity | image_utils.cpp:236-237 | on success a pixel is 0 iff it lies in the region |
| ImageUtils.MaskRoundTrip | image_utils.cpp:195-237 | a {0,255} mask converted to a region and back is the same mask |
| ImageUtils.WhiteMask | image_utils.cpp:227-234 | a binary mask with no pixel other than 255 is the all-255 frame returned for a region of area 0 |
| ImageUtils.RenderedMask | image_utils.cpp:236-237 | `RegionToBin(0, 255)` of the region of a binary mask's non-255 pixels is that mask |
| ImageUtils.RenderedRegion | image_utils.cpp:176-237 | rendering then converting back gives the region's pixels clipped to the frame |
| ImageUtils.Round | image_utils.cpp:50-53 | `std::round` lies within one half of its argument, and is non-negative for non-negative input |
| ImageUtils.MapLabelToImage | image_utils.cpp:38-63 | null for an empty image or a bad label; otherwise null or a non-degenerate rectangle inside the image |
| ImageUtils.MakeStructElement | image_utils.cpp:31-36 | an elliptic (2k+1)×(2k+1) element anchored at (k, k) |
| ImageLayout.Plane | image_utils.cpp:88-97 | a plane holds one byte per pixel |
| ImageLayout.Interleave | image_utils.cpp:136-145 | the interleaving holds three bytes per pixel |
| ImageLayout.FromHImage | image_utils.cpp:107-149 | the buffer built from a byte image is well formed |
| ImageLayout.InterleaveAt | image_utils.cpp:141-143 | bytes 3t, 3t+1 and 3t+2 are B, G and R of pixel t |
| ImageLayout.InterleaveFrom | image_utils.cpp:136-145 | a buffer agreeing with three planes at every pixel is their interleaving |
| ImageLayout.PlaneFrom | image_utils.cpp:88-97 | a plane agreeing with the buffer at every pixel is that plane |
| ImageLayout.PlaneOfInterleave | image_utils.cpp:88-97 | plane k of an interleaving is the k-th plane |
| ImageLayout.SplitThenInterleave | image_utils.cpp:65-149 | splitting a 1- or 3-channel buffer and rebuilding it is the identity |
| ImageLayout.InterleaveThenSplit | image_utils.cpp:65-149 | interleaving three planes and splitting again gives the planes back |
| ImageLayout.SplitRow | image_utils.cpp:90-96 | the inner loop writes B, G and R of one row and leaves other bytes alone |
| ImageLayout.SplitPlanes | image_utils.cpp:88-97 | the nested loop fills B, G and R with bytes 3s, 3s+1 and 3s+2 |
| ImageLayout.MatToHImage | image_utils.cpp:65-105 | one plane copied for 1 channel, three planes for 3 channels, no image otherwise |
| ImageLayout.InterleaveRow | image_utils.cpp:138-144 | the inner loop writes one row of interleaved bytes and leaves others alone |
| ImageLayout.InterleavePlanes | image_utils.cpp:136-145 | the nested loop writes B, G and R of pixel s at 3s, 3s+1 and 3s+2 |
| ImageLayout.HImageToMat | image_utils.cpp:107-149 | one plane copied, three planes interleaved as B, G, R, otherwise an empty buffer |
| PipelineTypes.DefaultDisplay | include/pipeline.h:41-42 | the original image at opacity 0.3, with neither green/white nor overlay |
| PipelineTypes.DisplayPredicates | include/pipeline.h:44-52 | `shouldShowGreenWhite` iff MaskGreenWhite, `shouldOverlay` iff MaskOverlay, never both |
| PipelineTypes.DefaultConfig | include/pipeline.h:57-97 | RGB channel; gray, RGB, S and V ranges [0,255]; H [0,179]; colour filter off; neutral tone; no shape condition in force |
| PipelineTypes.OrderedRange | include/pipeline.h:113-118 | low ≤ high afterwards, the same two values as a multiset, untouched if already ordered |
| PipelineTypes.PipelineConfig.constructor | include/pipeline.h:57-97 | a new configuration holds the defaults |
| PipelineTypes.PipelineConfig.SyncConfigFromUI | include/pipeline.h:106-119 | slider values taken as given or divided by 100; gray range ordered; every other field unchanged |
| PipelineTypes.PipelineConfig.ResetEnhancement | include/pipeline.h:120-127 | brightness 0, contrast 1, gamma 1, sharpen 1, gray filter off; everything else unchanged |
| PipelineTypes.DefaultCtx | include/pipeline.h:130-147 | default display, no images, no regions, zero regions counted, pass, empty reason |
| PipelineTypes.PipelineContext.constructor | include/pipeline.h:130-147 | a new context is the default context |
| PipelineSteps.IntText | pipeline_steps.h:121-123 | a number's text is never empty |
| PipelineSteps.ChannelImage | pipeline_steps.h:19-54 | source size; 3 channels for RGB or HSV, else 1 |
| PipelineSteps.ColorChannelStep | pipeline_steps.h:16-55 | an empty source changes nothing; only the channel image is written |
| PipelineSteps.ChannelPlanes | pipeline_steps.h:30-50 | B, G and R select planes 0, 1 and 2 of the source |
| PipelineSteps.EnhanceStep | pipeline_steps.h:66-78 | the enhanced image is written only when both the source and the channel image are non-empty |
| PipelineSteps.GrayOf | pipeline_steps.h:101-106 | a colour image becomes gray of the same size; anything else is kept |
| PipelineSteps.GrayFilterStep | pipeline_steps.h:90-129 | disabled: mask released; no enhanced image: no change; threshold throws: mask released; only the mask and reason change |
| PipelineSteps.GrayFilterMarksRange | pipeline_steps.h:108-119 | after a successful threshold, a mask pixel is 0 iff its gray value lies in [grayLow, grayHigh] |
| PipelineSteps.ColorMask | pipeline_steps.h:339-357 | the RGB or HSV mask is empty for an unfilterable input, else a {0,255} mask of its size |
| PipelineSteps.ColorFilterStep | pipeline_steps.h:330-372 | disabled or mode None: no change; no existing mask: the filter mask; only mask and reason change |
| PipelineSteps.ColorFilterMerges | pipeline_steps.h:363-368 | with an existing mask, each byte becomes the AND of the old byte and the filter byte |
| PipelineSteps.QueueInput | pipeline_steps.h:149-169 | input priority: the mask, else gray of the enhanced image, else gray of the source |
| PipelineSteps.AlgorithmQueueStep | pipeline_steps.h:142-181 | empty queue or input: no change; otherwise `processed` is the queue result on the input and the reason names the queue length |
| PipelineSteps.FilterAndKeeps | pipeline_steps.h:259-282 | AND mode narrows: a component survives iff it meets every valid condition; invalid ones are skipped |
| PipelineSteps.MeetsSomeAppend | pipeline_steps.h:284-315 | meeting some valid condition of a list extended by one |
| PipelineSteps.SurvivorsOfNone | pipeline_steps.h:309-314 | with no valid condition no pixel survives |
| PipelineSteps.SurvivorsAppend | pipeline_steps.h:295-307 | each further valid condition adds the pixels its selection keeps |
| PipelineSteps.FilterOrStateCovers | pipeline_steps.h:284-315 | the OR union exists iff some condition is valid, and covers exactly the components meeting one |
| PipelineSteps.FilterOrCovers | pipeline_steps.h:284-315 | OR mode: the empty region without a valid condition; otherwise the pixels of every component meeting some valid condition |
| PipelineSteps.ShapeFilterStep | pipeline_steps.h:194-247 | no processed image or no condition in force: no change; a throw sets only the failure reason; success records the post-filter count, renders the filtered region into `processed` at its size and sets the reason with both counts |
| PipelineSteps.FilteredMarksSurvivors | pipeline_steps.h:228-240 | the rendered filter result is 0 exactly on the components meeting every valid condition (AND) or some valid condition (OR) |
| PipelineSteps.ShapeFilterMarksSurvivors | pipeline_steps.h:207-240 | after a successful step, a pixel of `processed` is 0 iff it lies in a connected component of the old `processed` that passes the filter |
| PipelineSteps.RunColorChannel | pipeline_steps.h:16-55 | the object update equals `ColorChannelStep` |
| PipelineSteps.RunEnhance | pipeline_steps.h:66-78 | the object update equals `EnhanceStep` |
| PipelineSteps.RunGrayFilter | pipeline_steps.h:90-129 | the object update equals `GrayFilterStep` |
| PipelineSteps.RunColorFilter | pipeline_steps.h:330-372 | the object update equals `ColorFilterStep` |
| PipelineSteps.RunAlgorithmQueue | pipeline_steps.h:142-181 | the object update, running the queue method, equals `AlgorithmQueueStep` |
| PipelineSteps.ApplyFilterAnd | pipeline_steps.h:259-282 | the loop reassigning the result computes the AND filter |
| PipelineSteps.FilterAndFailurePersists | pipeline_steps.h:242-246 | a throw on a prefix of the conditions fails the whole AND filter |
| PipelineSteps.FilterOrFailurePersists | pipeline_steps.h:242-246 | a throw on a prefix of the conditions fails the whole OR filter |
| PipelineSteps.ApplyFilterOr | pipeline_steps.h:284-315 | the loop with its `hasResult` flag computes the OR filter |
| PipelineSteps.RunShapeFilter | pipeline_steps.h:194-247 | the object update equals `ShapeFilterStep` |
| PipelineSteps.FilterProcessed | pipeline_steps.h:207-225 | the conversion, connection, filter by mode and the two object counts compute `ShapeFiltered` |
| Pipelines.StepSpec | pipeline_steps.h:11-377 | no step touches the source, the display, the regions or the verdict; only the queue and shape filter write `processed` |
| Pipelines.RunAll | include/pipeline.h:172-175 | a run keeps the context invariant and the untouched fields; without a queue or shape step, `processed` is kept |
| Pipelines.RunAllAppend | include/pipeline.h:172-175 | running two lists in turn is running their concatenation |
| Pipelines.RunStep | include/pipeline.h:160 | one step on the object has the effect of its specification |
| Pipelines.Pipeline.constructor | include/pipeline.h:167 | a new pipeline has no steps |
| Pipelines.Pipeline.Add | include/pipeline.h:168-171 | `add` appends at the end |
| Pipelines.Pipeline.Run | include/pipeline.h:172-175 | every step runs once, in insertion order, with no early exit |
| PipelineManagers.Removed | src/pipeline_manager.cpp:78-85 | `removeAt`: one shorter, with earlier entries kept and later ones shifted down |
| PipelineManagers.Swapped | src/pipeline_manager.cpp:87-95 | `swapItemsAt`: the two entries exchanged and the others kept |
| PipelineManagers.RemovedMultiset | src/pipeline_manager.cpp:78-85 | removing loses exactly one copy of the removed step |
| PipelineManagers.SwappedPermutes | src/pipeline_manager.cpp:87-95 | swapping permutes the queue, and swapping again restores it |
| PipelineManagers.StandardSteps | src/pipeline_manager.cpp:143-157 | six steps, from channel selection to shape filter |
| PipelineManagers.FreshCtx | src/pipeline_manager.cpp:113-127 | a reset context holding the input and the display settings |
| PipelineManagers.FinishedMessage | src/pipeline_manager.cpp:133-135 | the reason when there is one, else a non-empty completion text |
| PipelineManagers.StandardRunFrame | src/pipeline_manager.cpp:113-138 | a run keeps the input and display settings, makes no region list and keeps `pass`; the display is empty or a colour image of the input's size |
| PipelineManagers.EmptyQueueRun | pipeline_steps.h:144-147 | with an empty queue the run is its first four steps, since the shape filter sees no processed image |
| PipelineManagers.IdleSuffix | pipeline_steps.h:144-147 | after steps that leave `processed` empty, an empty-queue step and the shape filter change nothing |
| PipelineManagers.IdleSteps | pipeline_steps.h:144-198 | with an empty queue the queue step, and with no processed image the shape filter, each return the context unchanged |
| PipelineManagers.PipelineManager.constructor | src/pipeline_manager.cpp:4-10 | defaults plus the enhancement reset, an empty queue, the six standard steps |
| PipelineManagers.PipelineManager.InitPipeline | src/pipeline_manager.cpp:143-157 | a new pipeline holding the six steps in order |
| PipelineManagers.PipelineManager.SyncFromUI | src/pipeline_manager.cpp:14-20 | forwards the slider positions to the configuration sync |
| PipelineManagers.PipelineManager.ResetEnhancement | src/pipeline_manager.cpp:22-25 | forwards to the configuration reset |
| PipelineManagers.PipelineManager.SetGrayFilterEnabled | src/pipeline_manager.cpp:27-30 | sets the one flag, nothing else |
| PipelineManagers.PipelineManager.SetAreaFilterEnabled | src/pipeline_manager.cpp:32-37 | sets the one flag, nothing else |
| PipelineManagers.PipelineManager.AddFilterCondition | src/pipeline_manager.cpp:39-43 | appends the condition and enables the shape filter; a valid condition puts it in force |
| PipelineManagers.PipelineManager.SetFilterMode | src/pipeline_manager.cpp:45-48 | sets the AND/OR mode, nothing else |
| PipelineManagers.PipelineManager.ClearShapeFilter | src/pipeline_manager.cpp:50-53 | no condition and disabled afterwards |
| PipelineManagers.PipelineManager.EnableShapeFilter | src/pipeline_manager.cpp:55-58 | sets the enabled flag, nothing else |
| PipelineManagers.PipelineManager.SetFeatureRange | src/pipeline_manager.cpp:60-70 | adds an enabled condition on the feature and enables the filter |
| PipelineManagers.PipelineManager.SetChannelMode | src/pipeline_manager.cpp:167-170 | sets the channel, nothing else |
| PipelineManagers.PipelineManager.SetColorFilterEnabled | src/pipeline_manager.cpp:196-199 | sets the flag, nothing else |
| PipelineManagers.PipelineManager.SetColorFilterMode | src/pipeline_manager.cpp:201-204 | sets the mode, nothing else |
| PipelineManagers.PipelineManager.SetRGBRange | src/pipeline_manager.cpp:206-214 | stores the six bounds unclamped, nothing else |
| PipelineManagers.PipelineManager.SetHSVRange | src/pipeline_manager.cpp:216-224 | stores the six bounds unclamped, nothing else |
| PipelineManagers.PipelineManager.SetCurrentFilterMode | src/pipeline_manager.cpp:226-229 | sets the page mode, nothing else |
| PipelineManagers.PipelineManager.SetDisplayMode | src/pipeline_manager.cpp:186-189 | the mode used by the next run, nothing else |
| PipelineManagers.PipelineManager.SetOverlayAlpha | src/pipeline_manager.cpp:191-194 | the empty body leaves the opacity unchanged |
| PipelineManagers.PipelineManager.AddAlgorithmStep | src/pipeline_manager.cpp:72-76 | appends to the queue, nothing else |
| PipelineManagers.PipelineManager.RemoveAlgorithmStep | src/pipeline_manager.cpp:78-85 | removes only at an index inside the queue; otherwise no change |
| PipelineManagers.PipelineManager.SwapAlgorithmStep | src/pipeline_manager.cpp:87-95 | exchanges two entries when both indices are below the size; always a permutation |
| PipelineManagers.PipelineManager.UpdateAlgorithmStep | src/pipeline_manager.cpp:177-184 | replaces only at an index inside the queue; other entries are kept |
| PipelineManagers.PipelineManager.ClearAlgorithmQueue | src/pipeline_manager.cpp:97-101 | empties the queue, nothing else |
| PipelineManagers.PipelineManager.Execute | src/pipeline_manager.cpp:105-139 | empty input: default context, last context untouched, no signal; otherwise the last context is the standard run of a fresh context, and the signal carries its reason |
| PipelineManagers.PipelineManager.ResetPipeline | src/pipeline_manager.cpp:236-269 | empty queue, empty and disabled shape filter with its AND/OR mode kept, MaskGreenWhite at 0.3, the standard steps again |
| Display.GreenWhitePixel | src/pipeline.cpp:114-121 | 0 becomes green (0,255,0); any other value becomes white |
| Display.GreenWhiteRow | src/pipeline.cpp:108-123 | one recoded pixel per column |
| Display.GreenWhite | src/pipeline.cpp:95-126 | empty in, empty out; otherwise the same size, 3 channels, each pixel recoded |
| Display.ConvertToGreenWhite | src/pipeline.cpp:95-126 | the row/column loop computes the recoding |
| Display.BlendByte | src/pipeline.cpp:157-161 | opacity 0 keeps the colour; opacity 1 gives the overlay colour |
| Display.BlendGreen | src/pipeline.cpp:154-161 | a blended pixel keeps three channels |
| Display.OverlayRow | src/pipeline.cpp:152-163 | one pixel per column |
| Display.Overlay | src/pipeline.cpp:128-167 | an empty operand or a size mismatch returns the colour image; only pixels with mask 0 change |
| Display.OverlayTransparent | src/pipeline.cpp:157-161 | at opacity 0 the overlay is the image itself |
| Display.OverlayOpaque | src/pipeline.cpp:154-161 | at opacity 1 a masked pixel is pure green |
| Display.OverlayMaskOnImage | src/pipeline.cpp:128-167 | the blending loop computes the overlay |
| Display.AsColour | src/pipeline.cpp:56-61 | gray is promoted to three channels; colour is kept |
| Display.FinalDisplay | src/pipeline.cpp:44-93 | per mode: the source; enhanced or the source; processed, else mask, else source; the overlay; processed recoded if gray; any other mode gives the source |
| Display.GreenMarksInside | src/pipeline.cpp:65-72 | in green/white mode a shown pixel is green iff the shown mask is 0 there |
| Display.GetFinalDisplay | src/pipeline.cpp:44-93 | the context object's display equals `FinalDisplay` |
| Controllers.Pushed | controllers/enhancement_tab_controller.cpp:83-89 | the state ends on top; pushed only when the history is empty or the state differs from the top |
| Controllers.PushedIdempotent | controllers/enhancement_tab_controller.cpp:83-89 | pushing the same state twice is pushing it once |
| Controllers.PushedKeepsNoRepeats | controllers/enhancement_tab_controller.cpp:83-89 | neighbouring snapshots stay distinct |
| Controllers.EnhancementTabController.constructor | controllers/enhancement_tab_controller.cpp:3-10 | empty history, undo button off |
| Controllers.EnhancementTabController.UpdateUndoUi | controllers/enhancement_tab_controller.cpp:91-96 | the undo button is enabled iff the history holds more than one snapshot |
| Controllers.EnhancementTabController.Initialize | controllers/enhancement_tab_controller.cpp:12-24 | the current positions are pushed; from an empty history exactly one snapshot, nothing to undo |
| Controllers.EnhancementTabController.PushSnapshot | controllers/enhancement_tab_controller.cpp:83-89 | the history becomes `Pushed`; the button is refreshed only when something was pushed |
| Controllers.EnhancementTabController.HandleReset | controllers/enhancement_tab_controller.cpp:98-115 | no pipeline: no change; else sliders at (0,100,100,100), the enhancement reset, gray filter off, history exactly that one snapshot, one refresh |
| Controllers.EnhancementTabController.HandleSave | controllers/enhancement_tab_controller.cpp:117-122 | the current positions are pushed and end on top |
| Controllers.EnhancementTabController.HandleUndo | controllers/enhancement_tab_controller.cpp:124-144 | empty: no change; unsaved positions go back to the top; else pop and apply the new top unless one remains; never below one snapshot; the button is not refreshed |
| Controllers.ChannelFromIndex | controllers/image_tab_controller.cpp:19-30 | 0→RGB, 1→Gray, 2→B, 3→G, 4→R, anything else RGB; BGR and HSV cannot be chosen |
| Controllers.ChannelFromIndexInjective | controllers/image_tab_controller.cpp:21-27 | the five entries select five different channels |
| Controllers.ButtonText | controllers/image_tab_controller.cpp:41-42 | the text reads ON iff the flag is set |
| Controllers.ImageTabController.constructor | controllers/image_tab_controller.cpp:4-11 | the channel flag starts off |
| Controllers.ImageTabController.HandleApplyChannel | controllers/image_tab_controller.cpp:32-50 | no window or pipeline: nothing; else the channel is set, the flag flips, the text follows, and the stored channel is emitted |
| Rois.Ceil | src/image_view.cpp:274-277 | `std::ceil`: the least integer not below the value |
| Rois.CropAt | src/image_view.cpp:285-286 | the crop has the rectangle's size and pixels |
| Rois.RoiRect | src/image_view.cpp:264-288 | x = max(0, ⌊x⌋), w = min(⌈w⌉, cols − x), likewise y and h; refused iff the image is empty or w ≤ 0 or h ≤ 0; an accepted rectangle lies inside the image |
| Rois.RoiManager.constructor | include/image_view.h:113-129 | no images, ROI off, null last rectangle |
| Rois.RoiManager.SetFullImage | src/image_view.cpp:240-252 | the new image, the ROI off and its image released |
| Rois.RoiManager.CurrentImage | src/image_view.cpp:254-257 | the crop while active, the full image otherwise |
| Rois.RoiManager.ApplyRoi | src/image_view.cpp:264-296 | succeeds iff `RoiRect` accepts; then active with that crop and rectangle; a refusal changes nothing |
| Rois.RoiManager.ResetRoi | src/image_view.cpp:298-306 | acts only when active; afterwards the current image is the full image |
| Rois.RoiManager.Clear | src/image_view.cpp:318-323 | both images released, ROI off |
| Rois.RoiOverhangKeepsSize | src/image_view.cpp:272-277 | a rectangle starting left of the image moves to x = 0 keeping its drawn width, cut only at the right edge |
| Rois.OlderRoiManager.constructor | image_view.h:88-103 | no images, ROI off, null last rectangle |
| Rois.OlderRoiManager.SetFullImage | image_view.cpp:235-240 | the current image equals the full image; ROI off |
| Rois.OlderRoiManager.ApplyRoi | image_view.cpp:252-284 | the same clamping and refusal as the newer manager; on success the current image is the crop |
| Rois.OlderRoiManager.ResetRoi | image_view.cpp:286-295 | with a full image, current = full and ROI off, active or not; without one, no change |
| Rois.OlderRoiManager.Clear | image_view.cpp:307-312 | both images released, ROI off |
| Rois.OlderCurrentMatchesNewer | image_view.cpp:242-245 | the older stored current image is what the newer `getCurrentImage` computes |
| Legacy.OlderStep | image_processor.cpp:45-67 | one step: gray, to region, the operator, back to a {0,255} mask of the same size; a failing conversion fails the step |
| Legacy.OlderFold | image_processor.cpp:36-75 | the result is the source or a {0,255} mask of its size; no running step leaves the source |
| Legacy.OlderQueueSpec | image_processor.cpp:27-79 | empty source or no step that runs: the source; otherwise a non-empty image of the source's size, the source or a 1-channel {0,255} mask |
| Legacy.OlderFoldSkipsIdleSteps | image_processor.cpp:39-41 | disabled and non-Halcon steps are skipped: the fold over the queue is the fold over its running steps |
| Legacy.OneRunningStepQueuesAgree | image_processor.cpp:27-79 | with at most one running step the older queue gives the newer queue's result on a gray input |
| Legacy.OlderStoppedPersists | image_processor.cpp:69-73 | after a failure later steps change nothing |
| Legacy.OlderStepChains | image_processor.cpp:44-67 | each step consumes the previous step's output |
| Legacy.OlderFailureKeepsPrefix | image_processor.cpp:69-73 | a failure at step k returns the output of the steps before k: a partial application |
| Legacy.OlderFirstFailureKeepsSource | image_processor.cpp:69-73 | a failure in the first running step returns the source |
| Legacy.OlderExecuteAlgorithmQueue | image_processor.cpp:27-79 | the loop with `firstIteration` and `workingImage` computes `OlderQueueSpec` |
| Legacy.OlderRunStep | image_processor.cpp:45-65 | one running step (gray conversion, region, step, mask of the gray size) computes `OlderStep`, a throw giving a failure |
| Legacy.OlderFinalDisplay | pipeline.cpp:44-67 | the priority chain shows the source or a colour image of the shown artifact's size |
| Legacy.OlderNoMaskNoGreenWhite | pipeline.cpp:48-65 | with neither processed nor mask no green/white image is shown: the promoted enhanced image or the source |
| Legacy.OlderProcessedWins | pipeline.cpp:48-56 | a gray processed image always wins over the mask, green exactly at its 0 pixels |
| Legacy.OlderChainIsGreenWhiteMode | pipeline.cpp:44-67 | when processed or mask is present, the older chain agrees with the newer green/white mode |
| Legacy.OlderSteps | pipeline_manager.cpp:133-146 | five steps, the standard order without the colour filter |
| Legacy.OlderQueueStep | pipeline_steps.h:142-181 | the queue step over the older processor: empty queue or input, no change; otherwise `processed` is the older queue's result and the reason names the queue length |
| Legacy.OlderQueueStepAgrees | pipeline_steps.h:173 | with at most one running step the older queue step is the newer one |
| Legacy.OlderStepSpec | pipeline_manager.cpp:133-146 | a step of the older pipeline keeps the invariant and the source, display, regions and verdict |
| Legacy.OlderRunAll | pipeline.h:100-109 | an older run keeps the invariant and the source, display, regions and verdict |
| Legacy.OlderRunAllAgrees | pipeline_steps.h:173 | with at most one running step any older run equals the newer run of the same steps |
| Legacy.OlderRunAlgorithmQueue | pipeline_steps.h:142-181 | the object update, running the older queue method, equals `OlderQueueStep` |
| Legacy.OlderPipelineStep | pipeline_manager.cpp:133-146 | one older step on the context object equals `OlderStepSpec` |
| Legacy.OlderPipelineRun | pipeline.h:100-109 | every step in insertion order on one context equals `OlderRunAll` |
| Legacy.StandardRunWithoutColour | pipeline_steps.h:330-361 | with the colour filter off, dropping its step from the newer list changes nothing |
| Legacy.OlderRunIsStandardWithoutColour | pipeline_manager.cpp:133-146 | with the colour filter off and at most one running queue step, the older five-step run equals the newer six-step run |
| Legacy.OlderPipelineManager.constructor | pipeline_manager.cpp:4-10 | defaults plus the enhancement reset, an empty queue, the five steps |
| Legacy.OlderPipelineManager.InitPipeline | pipeline_manager.cpp:133-146 | a new pipeline holding the five steps |
| Legacy.OlderPipelineManager.AddAlgorithmStep | pipeline_manager.cpp:74-78 | appends |
| Legacy.OlderPipelineManager.RemoveAlgorithmStep | pipeline_manager.cpp:80-87 | removes only at a valid index |
| Legacy.OlderPipelineManager.SwapAlgorithmStep | pipeline_manager.cpp:89-97 | only upper bounds are checked; always a permutation |
| Legacy.OlderPipelineManager.ClearAlgorithmQueue | pipeline_manager.cpp:99-103 | empties the queue |
| Legacy.OlderPipelineManager.Execute | pipeline_manager.cpp:107-129 | empty input: default context, last context untouched; otherwise a fresh default context holding the input, run through the five older steps |

## Left out

- Pixel numerics of OpenCV are parameters of `CvLib`, not computations: `cvtColor` to gray and to HSV, and `adjustParameter`'s contrast, gamma look-up table and unsharp mask.
- Halcon's region operators are uninterpreted functions of `HalconLib`: morphology, connection, fill-up, shape transformation, features and polygon rasterisation. Whether a Halcon call throws is an oracle.
- Halcon.Union2: `HRegion::Union2` is taken as one object holding the pixels of both operands. This is the model's reading, not Halcon's behaviour: Halcon unites each object of the first operand with all of the second, so the result keeps the first operand's object count. In the OR filter the first operand can be a selection of several components, and then the program's tuple, its post-filter component count and the rendered `processed` may differ from the model's.
- Region features are measured by an oracle. Circularity and the centre are the uninterpreted `HalconLib.circularity` and `HalconLib.center`. `RegionFeature::toString` is float formatting and is left out.
- `QVariant` cross-type conversions and number formatting (`QString::arg` of doubles) are parameters.
- Display.BlendByte: the overlay blend is computed in reals with truncation. The source computes it in `float`, and 0.3f is taken as 0.3.
- Display.GreenWhite: it requires a single-channel mask. Every caller holds one by the context invariant. The `convertTo(CV_8U)` path is not modelled.
- Display.Overlay: it requires an opacity in [0, 1], which the fixed 0.3 meets.
- Exceptions thrown by OpenCV on a bad channel count cannot occur in the model:
  - `PipelineManagers.PipelineManager.Execute` requires a 3-channel input;
  - the context invariant keeps every artifact's channel count;
  - `Legacy.OlderExecuteAlgorithmQueue` requires a 1- or 3-channel input, with which the older code does not throw.
- The default branches of enum switches are unreachable and are not modelled. The UI only sets named enumerators.
- An exception from `CountObj` is not modelled.
- ImageUtils.MapLabelToImage: a null label is `None`. A zero label size is excluded by its requires, because the source divides by it.
- ImageUtils.MakeStructElement requires a non-negative size, as every caller passes.
- Rois.RoiRect: the `(int)` casts of `floor` and `ceil` are taken as exact. Overflow of huge rectangles is ignored.
- Getters that only read a field (`getChannelMode`, `getFullImage`, `isRoiActive`, `getLastRoi`, `getCurrentFilterMode`) are field reads of the classes.
- The older `getCurrentImage` is the field `currentImage` of `Rois.OlderRoiManager`.
- `rebuildPipeline` only logs and is left out.
- The older manager's configuration setters are identical to the newer ones. They are the `PipelineManagers.PipelineManager` members and are not repeated in `Legacy.OlderPipelineManager`.
- Legacy.OlderPipelineManager.Execute: its context keeps the default display configuration, because the older context has none.
- Legacy.OlderRunIsStandardWithoutColour: holds only when at most one step of the queue runs. With two or more running steps the older queue converts between steps and keeps the last mask on a throw (`Legacy.OlderFailureKeepsPrefix`), while the newer queue returns the gray input (`ImageProcessor.QueueFailureGivesGray`).
- ImageUtils.Render and ImageUtils.HRegionToMat: a tuple of several objects is rendered as the union of its objects. This is the model's reading. The source reads only the first area, the first channel count and one image pointer (`image_utils.cpp:228-252`), while `RegionToBin` gives one image per object. So with several objects the program's `processed` may be the first object's image alone, or the all-zero image of the catch at `image_utils.cpp:297-301`. Multi-object tuples do reach this path: the AND filter's result and a queue that ends in `Connection`.
- ImageUtils.HRegionToMatPolarity, ImageUtils.RenderedRegion, PipelineSteps.FilteredMarksSurvivors and PipelineSteps.ShapeFilterMarksSurvivors: they rest on the same union reading of a multi-object tuple. For the shape filter that reading is exact only when the filtered tuple has one object.
- HalconAlgorithm.AnalyzeRegionsInPolygon: requires a 1-channel image. The one caller passes the processed image or the mask (`src/mainwindow.cpp:866-870`), both 1-channel by the context invariant. A 3-channel image would fail a `CV_Assert` that the source does not catch.
- Signals (`emit`), logging, `qDebug`, the status-bar tip and the debounce timer are left out. The processing callback of the enhancement tab is counted as `refreshes`.
- The enhancement tab's slider handlers are left out. `setValue` is assumed to stay within the slider range.
- The undo button's initial state, which comes from the form file, is taken as disabled.
- Out of scope:
  - the `ImageView` widget: mouse, zoom and scene items;
  - the main window and its wiring;
  - template matching and its strategies;
  - the system monitor;
  - the logger;
  - application start-up.
