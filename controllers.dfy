/** The two tab controllers of the main window
    (`controllers/enhancement_tab_controller.cpp`,
    `controllers/image_tab_controller.cpp`): the undo history of the
    enhancement sliders, and the channel switch. The widgets are fields:
    the four slider positions, the enabled state of the undo button, the
    combo-box index and the button text. */
module Controllers {
  import opened Wrappers
  import opened PipelineTypes
  import opened PipelineManagers

  // ------------------------------------------------------ enhancement tab

  /** `EnhancementState`: the four slider positions, compared field by field. */
  datatype EnhancementState = EnhancementState(brightness: int, contrast: int, gamma: int, sharpen: int)

  /** The member initialisers of `EnhancementState`, which are also the
      positions `handleReset` moves the sliders to. */
  const DefaultState := EnhancementState(0, 100, 100, 100)

  /** `pushSnapshot` on a history whose top is its last element: the state
      goes on top unless it is already there. */
  function Pushed(h: seq<EnhancementState>, s: EnhancementState): (r: seq<EnhancementState>)
    ensures |r| > 0 && r[|r| - 1] == s
    ensures r == h || r == h + [s]
    ensures |h| > 0 && h[|h| - 1] == s ==> r == h
  {
    if |h| == 0 || s != h[|h| - 1] then h + [s] else h
  }

  /** Pushing the same state twice is pushing it once. */
  lemma PushedIdempotent(h: seq<EnhancementState>, s: EnhancementState)
    ensures Pushed(Pushed(h, s), s) == Pushed(h, s)
  {
  }

  /** No two neighbouring snapshots of the history are equal. */
  predicate NoRepeats(h: seq<EnhancementState>)
  {
    forall i :: 0 < i < |h| ==> h[i - 1] != h[i]
  }

  /** Pushing keeps neighbouring snapshots distinct. */
  lemma PushedKeepsNoRepeats(h: seq<EnhancementState>, s: EnhancementState)
    requires NoRepeats(h)
    ensures NoRepeats(Pushed(h, s))
  {
  }

  /** `EnhancementTabController`. `sliders` are the slider positions
      `captureState` reads and `applyState` writes; `refreshes` counts the
      calls of the processing callback. */
  class EnhancementTabController {
    const pipeline: PipelineManager?
    var sliders: EnhancementState
    var history: seq<EnhancementState>
    var undoEnabled: bool
    var refreshes: nat

    /** A history of more than one snapshot always has the undo button
        enabled, and an enabled button always has a snapshot to go to. */
    predicate Valid()
      reads this
    {
      (|history| > 1 ==> undoEnabled) && (undoEnabled ==> |history| >= 1)
    }

    /** A controller on the given pipeline, sliders at the given positions,
        with an empty history. */
    constructor (p: PipelineManager?, positions: EnhancementState)
      ensures Valid()
      ensures pipeline == p && sliders == positions && history == [] && !undoEnabled && refreshes == 0
    {
      pipeline := p;
      sliders := positions;
      history := [];
      undoEnabled := false;
      refreshes := 0;
    }

    /** `updateUndoUi`: the undo button is enabled exactly when there is a
        snapshot before the top one. */
    method UpdateUndoUi()
      modifies this
      ensures undoEnabled == (|history| > 1)
      ensures Valid()
      ensures sliders == old(sliders) && history == old(history) && refreshes == old(refreshes)
    {
      var hasSnapshot := |history| > 0;
      var canStepBack := |history| > 1;
      undoEnabled := hasSnapshot && canStepBack;
    }

    /** `initialize`: the current positions become a snapshot; from an empty
        history there is exactly one and nothing to undo. */
    method Initialize()
      modifies this
      ensures history == old(history) + [old(sliders)]
      ensures undoEnabled == (|history| > 1) && Valid()
      ensures old(history) == [] ==> |history| == 1 && !undoEnabled
      ensures sliders == old(sliders) && refreshes == old(refreshes)
    {
      history := history + [sliders];
      UpdateUndoUi();
    }

    /** `pushSnapshot`: pushes unless the state is already on top, and then
        refreshes the undo button. */
    method PushSnapshot(state: EnhancementState)
      requires Valid()
      modifies this
      ensures Valid()
      ensures history == Pushed(old(history), state)
      ensures history != old(history) ==> undoEnabled == (|history| > 1)
      ensures history == old(history) ==> undoEnabled == old(undoEnabled)
      ensures sliders == old(sliders) && refreshes == old(refreshes)
    {
      if |history| == 0 || state != history[|history| - 1] {
        history := history + [state];
        UpdateUndoUi();
      }
    }

    /** `handleReset`: without a pipeline nothing happens. Otherwise the
        sliders go to (0, 100, 100, 100), the pipeline's enhancement is reset
        with the gray filter off, the history becomes that one snapshot and
        processing runs. */
    method HandleReset()
      requires Valid()
      modifies this, if pipeline != null then {pipeline.config} else {}
      ensures Valid()
      ensures pipeline == null ==>
        sliders == old(sliders) && history == old(history) && undoEnabled == old(undoEnabled) &&
        refreshes == old(refreshes)
      ensures pipeline != null ==>
        sliders == DefaultState && history == [DefaultState] && !undoEnabled && refreshes == old(refreshes) + 1
      ensures pipeline != null ==>
        pipeline.config.Value() ==
        old(pipeline.config.Value()).(brightness := 0, contrast := 1.0, gamma := 1.0, sharpen := 1.0,
                                      enableGrayFilter := false)
      ensures pipeline != null ==> pipeline.config.shapeFilter == old(pipeline.config.shapeFilter)
    {
      if pipeline == null {
        return;
      }
      sliders := DefaultState;
      pipeline.ResetEnhancement();
      pipeline.SetGrayFilterEnabled(false);
      var snapshot := sliders;
      history := [];
      history := history + [snapshot];
      UpdateUndoUi();
      refreshes := refreshes + 1;
    }

    /** `handleSave`: the current positions are pushed as a snapshot. */
    method HandleSave()
      requires Valid()
      modifies this
      ensures Valid()
      ensures history == Pushed(old(history), old(sliders))
      ensures |history| > 0 && history[|history| - 1] == sliders
      ensures sliders == old(sliders) && refreshes == old(refreshes)
    {
      var current := sliders;
      PushSnapshot(current);
    }

    /** `handleUndo`. With no snapshot nothing happens. Unsaved positions go
        back to the top snapshot, which stays. Positions that are the top
        snapshot go back to the one before it, which becomes the top, unless
        it is the only one. The undo button is not refreshed. */
    method HandleUndo()
      requires Valid()
      modifies this
      ensures Valid()
      ensures |old(history)| == 0 ==> history == old(history) && sliders == old(sliders) && refreshes == old(refreshes)
      ensures |old(history)| > 0 && old(sliders) != old(history)[|old(history)| - 1] ==>
        history == old(history) && sliders == history[|history| - 1] && refreshes == old(refreshes) + 1
      ensures |old(history)| > 1 && old(sliders) == old(history)[|old(history)| - 1] ==>
        history == old(history)[..|old(history)| - 1] && sliders == history[|history| - 1] &&
        refreshes == old(refreshes) + 1
      ensures |old(history)| == 1 && old(sliders) == old(history)[0] ==>
        history == old(history) && sliders == old(sliders) && refreshes == old(refreshes)
      ensures |old(history)| > 0 ==> |history| > 0 && sliders == history[|history| - 1]
      ensures |history| >= |old(history)| - 1 && history == old(history)[..|history|]
      ensures undoEnabled == old(undoEnabled)
    {
      if |history| == 0 {
        return;
      }
      var current := sliders;
      var latest := history[|history| - 1];
      if current != latest {
        sliders := latest;
        refreshes := refreshes + 1;
        return;
      }
      if |history| > 1 {
        history := history[..|history| - 1];
        sliders := history[|history| - 1];
        refreshes := refreshes + 1;
      }
    }
  }

  // ------------------------------------------------------------ image tab

  /** `channelFromIndex`: the combo-box entries RGB, Gray, B, G, R in that
      order; any other index is RGB. BGR and HSV cannot be chosen. */
  function ChannelFromIndex(index: int): (c: Channel)
    ensures c != BGR && c != HSV
    ensures (index < 0 || index > 4) ==> c == RGB
    ensures index == 1 <==> c == Gray
    ensures index == 2 <==> c == B
    ensures index == 3 <==> c == G
    ensures index == 4 <==> c == R
  {
    match index
    case 0 => RGB
    case 1 => Gray
    case 2 => B
    case 3 => G
    case 4 => R
    case _ => RGB
  }

  /** The five entries of the combo box select five different channels. */
  lemma ChannelFromIndexInjective(i: int, j: int)
    requires 0 <= i < 5 && 0 <= j < 5 && ChannelFromIndex(i) == ChannelFromIndex(j)
    ensures i == j
  {
  }

  const ChannelOnText := "通道切换: ON"
  const ChannelOffText := "通道切换: OFF"

  /** The channel button's text: ON exactly when the flag is set. */
  function ButtonText(flag: bool): (t: string)
    ensures t == ChannelOnText <==> flag
    ensures t == ChannelOnText || t == ChannelOffText
  {
    if flag then ChannelOnText else ChannelOffText
  }

  /** `ImageTabController`: `hasUi` says whether the window exists,
      `comboIndex` is the selected combo-box entry. */
  class ImageTabController {
    const hasUi: bool
    const pipeline: PipelineManager?
    var comboIndex: int
    var channelFlag: bool
    var buttonText: string

    /** A controller with the flag off. */
    constructor (ui: bool, p: PipelineManager?, index: int, text: string)
      ensures hasUi == ui && pipeline == p && comboIndex == index && !channelFlag && buttonText == text
    {
      hasUi := ui;
      pipeline := p;
      comboIndex := index;
      channelFlag := false;
      buttonText := text;
    }

    /** `handleApplyChannel`: without a window or a pipeline nothing happens
        and nothing is emitted. Otherwise the selected channel goes to the
        pipeline, the flag flips (so two calls restore it), the button text
        follows the flag, and the stored channel is emitted. */
    method HandleApplyChannel() returns (emitted: Option<Channel>)
      modifies this, if pipeline != null then {pipeline.config} else {}
      ensures comboIndex == old(comboIndex)
      ensures !hasUi || pipeline == null ==>
        emitted == None && channelFlag == old(channelFlag) && buttonText == old(buttonText)
      ensures hasUi && pipeline != null ==>
        pipeline.config.Value() == old(pipeline.config.Value()).(channel := ChannelFromIndex(comboIndex)) &&
        pipeline.config.shapeFilter == old(pipeline.config.shapeFilter) &&
        channelFlag == !old(channelFlag) && buttonText == ButtonText(channelFlag) &&
        emitted == Some(pipeline.config.channel)
    {
      if !hasUi || pipeline == null {
        return None;
      }
      var channel := ChannelFromIndex(comboIndex);
      pipeline.SetChannelMode(channel);
      channelFlag := !channelFlag;
      buttonText := ButtonText(channelFlag);
      emitted := Some(channel);
    }
  }
}
