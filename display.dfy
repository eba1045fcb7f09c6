/** The final display of a context (`src/pipeline.cpp`): the green/white
    rendering of a mask, the green overlay of a mask on the source, and the
    choice among the context's images by display mode. */
module Display {
  import opened Raster
  import opened PipelineTypes
  import opened PipelineSteps

  /** Green (B, G, R) = (0, 255, 0) for a 0 ("inside") mask byte, white otherwise. */
  function GreenWhitePixel(v: byte): (p: Pixel)
    ensures |p| == 3
    ensures v == 0 <==> p == [0, 255, 0]
    ensures v != 0 <==> p == [255, 255, 255]
  {
    if v == 0 then [0, 255, 0] else [255, 255, 255]
  }

  /** Row `y` of the green/white rendering. */
  function GreenWhiteRow(m: Mat, y: nat): (row: seq<Pixel>)
    requires m.channels == 1 && y < m.rows
    ensures |row| == m.cols
  {
    seq(m.cols, (x: int) requires 0 <= x < m.cols => GreenWhitePixel(m.px[y][x][0]))
  }

  /** `convertToGreenWhite` (and the free `maskToGreenWhite`): an empty mask
      gives an empty image; otherwise a colour image of the mask's size,
      green exactly where the mask is 0 and white elsewhere. */
  function GreenWhite(m: Mat): (r: Mat)
    requires m.channels == 1
    ensures Empty(m) ==> r == EmptyMat
    ensures !Empty(m) ==> SameSize(r, m) && r.channels == 3
    ensures !Empty(m) ==> forall y, x :: 0 <= y < m.rows && 0 <= x < m.cols ==>
      (r.px[y][x] == [0, 255, 0] <==> m.px[y][x][0] == 0) &&
      (r.px[y][x] == [255, 255, 255] <==> m.px[y][x][0] != 0)
  {
    if Empty(m) then EmptyMat
    else MatData(m.rows, m.cols, 3, seq(m.rows, (y: int) requires 0 <= y < m.rows => GreenWhiteRow(m, y)))
  }

  /** `convertToGreenWhite`, filling the result row by row as the source does. */
  method ConvertToGreenWhite(m: Mat) returns (r: Mat)
    requires m.channels == 1
    ensures r == GreenWhite(m)
  {
    if Empty(m) {
      return EmptyMat;
    }
    var rows: seq<seq<Pixel>> := [];
    var y := 0;
    while y < m.rows
      invariant 0 <= y <= m.rows
      invariant |rows| == y
      invariant forall i :: 0 <= i < y ==> rows[i] == GreenWhiteRow(m, i)
    {
      var row: seq<Pixel> := [];
      var x := 0;
      while x < m.cols
        invariant 0 <= x <= m.cols
        invariant |row| == x
        invariant forall j :: 0 <= j < x ==> row[j] == GreenWhitePixel(m.px[y][j][0])
      {
        if m.px[y][x][0] == 0 {
          row := row + [[0, 255, 0]];
        } else {
          row := row + [[255, 255, 255]];
        }
        x := x + 1;
      }
      rows := rows + [row];
      y := y + 1;
    }
    r := MatData(m.rows, m.cols, 3, rows);
  }

  /** One channel of the blend `c * (1 - alpha) + g * alpha`, truncated to a byte
      as the `uchar` arguments of `cv::Vec3b` truncate it. */
  function BlendByte(c: byte, g: byte, alpha: real): (b: byte)
    requires 0.0 <= alpha <= 1.0
    ensures alpha == 0.0 ==> b == c
    ensures alpha == 1.0 ==> b == g
  {
    BlendUpper(c as real, g as real, alpha);
    BlendLower(c as real, g as real, alpha);
    var v := (c as real) * (1.0 - alpha) + (g as real) * alpha;
    assert 0 <= v.Floor <= 255;
    v.Floor
  }

  /** Multiplying by a non-negative factor keeps an inequality. */
  lemma MulLe(a: real, b: real, k: real)
    requires a <= b && 0.0 <= k
    ensures a * k <= b * k
  {
  }

  /** The blend of two byte values is at most 255. */
  lemma BlendUpper(cr: real, gr: real, alpha: real)
    requires 0.0 <= cr <= 255.0 && 0.0 <= gr <= 255.0 && 0.0 <= alpha <= 1.0
    ensures cr * (1.0 - alpha) + gr * alpha <= 255.0
  {
    MulLe(cr, 255.0, 1.0 - alpha);
    MulLe(gr, 255.0, alpha);
    assert cr * (1.0 - alpha) <= 255.0 * (1.0 - alpha);
    assert gr * alpha <= 255.0 * alpha;
    assert 255.0 * (1.0 - alpha) + 255.0 * alpha == 255.0;
  }

  /** The blend of two byte values is not negative. */
  lemma BlendLower(cr: real, gr: real, alpha: real)
    requires 0.0 <= cr <= 255.0 && 0.0 <= gr <= 255.0 && 0.0 <= alpha <= 1.0
    ensures 0.0 <= cr * (1.0 - alpha) + gr * alpha
  {
    MulLe(0.0, cr, 1.0 - alpha);
    MulLe(0.0, gr, alpha);
    assert 0.0 <= cr * (1.0 - alpha);
    assert 0.0 <= gr * alpha;
  }

  /** A colour pixel blended with green (0, 255, 0). */
  function BlendGreen(p: Pixel, alpha: real): (q: Pixel)
    requires |p| == 3 && 0.0 <= alpha <= 1.0
    ensures |q| == 3
  {
    [BlendByte(p[0], 0, alpha), BlendByte(p[1], 255, alpha), BlendByte(p[2], 0, alpha)]
  }

  /** Whether the overlay touches the image at all: both non-empty, one size. */
  predicate Overlays(bgr: Mat, mask: Mat)
  {
    !Empty(bgr) && !Empty(mask) && SameSize(bgr, mask)
  }

  /** Row `y` of the overlay. */
  function OverlayRow(bgr: Mat, mask: Mat, alpha: real, y: nat): (row: seq<Pixel>)
    requires Overlays(bgr, mask) && bgr.channels == 3 && mask.channels == 1 && y < bgr.rows
    requires 0.0 <= alpha <= 1.0
    ensures |row| == bgr.cols
  {
    seq(bgr.cols, (x: int) requires 0 <= x < bgr.cols =>
      if mask.px[y][x][0] == 0 then BlendGreen(bgr.px[y][x], alpha) else bgr.px[y][x])
  }

  /** `overlayMaskOnImage`: with an empty operand or two sizes the colour
      image comes back as it is; otherwise only the pixels where the mask is
      0 change, each blended with green by `alpha`. */
  function Overlay(bgr: Mat, mask: Mat, alpha: real): (r: Mat)
    requires !Empty(bgr) ==> bgr.channels == 3
    requires !Empty(mask) ==> mask.channels == 1
    requires 0.0 <= alpha <= 1.0
    ensures !Overlays(bgr, mask) ==> r == bgr
    ensures SameSize(r, bgr) && r.channels == bgr.channels
    ensures Overlays(bgr, mask) ==> forall y, x :: 0 <= y < bgr.rows && 0 <= x < bgr.cols ==>
      r.px[y][x] == (if mask.px[y][x][0] == 0 then BlendGreen(bgr.px[y][x], alpha) else bgr.px[y][x])
  {
    if !Overlays(bgr, mask) then bgr
    else MatData(bgr.rows, bgr.cols, 3,
      seq(bgr.rows, (y: int) requires 0 <= y < bgr.rows => OverlayRow(bgr, mask, alpha, y)))
  }

  /** With opacity 0 the overlay is the colour image itself. */
  lemma OverlayTransparent(bgr: Mat, mask: Mat)
    requires !Empty(bgr) ==> bgr.channels == 3
    requires !Empty(mask) ==> mask.channels == 1
    ensures Overlay(bgr, mask, 0.0) == bgr
  {
    if Overlays(bgr, mask) {
      var r := Overlay(bgr, mask, 0.0);
      forall y, x | 0 <= y < bgr.rows && 0 <= x < bgr.cols ensures r.px[y][x] == bgr.px[y][x] {
        var p := bgr.px[y][x];
        assert BlendGreen(p, 0.0) == [p[0], p[1], p[2]];
      }
      ImageUtils.MatExt(r, bgr);
    }
  }

  /** With opacity 1 the masked pixels become pure green. */
  lemma OverlayOpaque(bgr: Mat, mask: Mat, y: int, x: int)
    requires Overlays(bgr, mask) && bgr.channels == 3 && mask.channels == 1
    requires 0 <= y < bgr.rows && 0 <= x < bgr.cols && mask.px[y][x][0] == 0
    ensures Overlay(bgr, mask, 1.0).px[y][x] == [0, 255, 0]
  {
  }

  /** `overlayMaskOnImage`, blending row by row as the source does. */
  method OverlayMaskOnImage(bgr: Mat, mask: Mat, alpha: real) returns (r: Mat)
    requires !Empty(bgr) ==> bgr.channels == 3
    requires !Empty(mask) ==> mask.channels == 1
    requires 0.0 <= alpha <= 1.0
    ensures r == Overlay(bgr, mask, alpha)
  {
    if Empty(bgr) || Empty(mask) {
      return bgr;
    }
    if bgr.rows != mask.rows || bgr.cols != mask.cols {
      return bgr;
    }
    var rows: seq<seq<Pixel>> := [];
    var y := 0;
    while y < mask.rows
      invariant 0 <= y <= mask.rows
      invariant |rows| == y
      invariant forall i :: 0 <= i < y ==> rows[i] == OverlayRow(bgr, mask, alpha, i)
    {
      var row: seq<Pixel> := [];
      var x := 0;
      while x < mask.cols
        invariant 0 <= x <= mask.cols
        invariant |row| == x
        invariant forall j :: 0 <= j < x ==> row[j] == OverlayRow(bgr, mask, alpha, y)[j]
      {
        if mask.px[y][x][0] == 0 {
          row := row + [BlendGreen(bgr.px[y][x], alpha)];
        } else {
          row := row + [bgr.px[y][x]];
        }
        x := x + 1;
      }
      rows := rows + [row];
      y := y + 1;
    }
    r := MatData(bgr.rows, bgr.cols, 3, rows);
  }

  /** A colour rendering of an image: GRAY2BGR for a single-channel one. */
  function AsColour(m: Mat): (r: Mat)
    requires m.channels == 1 || m.channels == 3
    ensures SameSize(r, m) && r.channels == 3
    ensures m.channels == 3 ==> r == m
  {
    if m.channels == 1 then GrayToBgr(m) else m
  }

  /** `getFinalDisplay`. Original: the source (an empty one as `cv::Mat()`).
      Enhanced: the enhanced image in colour, else the source. Green/white:
      the processed image, else the mask, else the source. Overlay: the mask
      over the source, else the source. Processed: the processed image in
      green/white, else the source. What is shown is always empty or a colour
      image of the source's size. */
  function FinalDisplay(c: Ctx): (r: Mat)
    requires Wf(c) && 0.0 <= c.display.overlayAlpha <= 1.0
    ensures Empty(r) || (r.channels == 3 && SameSize(r, c.srcBgr))
    ensures c.display.mode == Original ==> r == (if Empty(c.srcBgr) then EmptyMat else c.srcBgr)
    ensures c.display.mode == MaskGreenWhite && !Empty(c.processed) ==> r == GreenWhite(c.processed)
    ensures c.display.mode == MaskGreenWhite && Empty(c.processed) && !Empty(c.mask) ==> r == GreenWhite(c.mask)
    ensures (c.display.mode != Original && c.display.mode != MaskOverlay &&
             Empty(c.enhanced) && Empty(c.mask) && Empty(c.processed)) ==> r == c.srcBgr
    ensures c.display.mode == MaskOverlay ==> r == Overlay(c.srcBgr, c.mask, c.display.overlayAlpha)
  {
    match c.display.mode
    case Original => if Empty(c.srcBgr) then EmptyMat else c.srcBgr
    case Enhanced => if !Empty(c.enhanced) then AsColour(c.enhanced) else c.srcBgr
    case MaskGreenWhite =>
      if !Empty(c.processed) then GreenWhite(c.processed)
      else if !Empty(c.mask) then GreenWhite(c.mask)
      else c.srcBgr
    case MaskOverlay => if !Empty(c.mask) then Overlay(c.srcBgr, c.mask, c.display.overlayAlpha) else c.srcBgr
    case Processed => if !Empty(c.processed) then GreenWhite(c.processed) else c.srcBgr
  }

  /** In green/white mode the green pixels of the display are exactly the
      0 bytes of the processed image, or of the mask when nothing was processed. */
  lemma GreenMarksInside(c: Ctx, y: int, x: int)
    requires Wf(c) && 0.0 <= c.display.overlayAlpha <= 1.0
    requires c.display.mode == MaskGreenWhite && (!Empty(c.processed) || !Empty(c.mask))
    requires 0 <= y < c.srcBgr.rows && 0 <= x < c.srcBgr.cols
    ensures var shown := if !Empty(c.processed) then c.processed else c.mask;
      FinalDisplay(c).px[y][x] == [0, 255, 0] <==> shown.px[y][x][0] == 0
  {
  }

  /** `getFinalDisplay` on a context object. */
  method GetFinalDisplay(ctx: PipelineContext) returns (r: Mat)
    requires Wf(ctx.Snapshot()) && 0.0 <= ctx.display.overlayAlpha <= 1.0
    ensures r == FinalDisplay(ctx.Snapshot())
  {
    match ctx.display.mode
    case Original =>
      r := if Empty(ctx.srcBgr) then EmptyMat else ctx.srcBgr;
    case Enhanced =>
      if !Empty(ctx.enhanced) {
        r := if ctx.enhanced.channels == 1 then GrayToBgr(ctx.enhanced) else ctx.enhanced;
      } else {
        r := ctx.srcBgr;
      }
    case MaskGreenWhite =>
      if !Empty(ctx.processed) {
        r := ConvertToGreenWhite(ctx.processed);
      } else if !Empty(ctx.mask) {
        r := ConvertToGreenWhite(ctx.mask);
      } else {
        r := ctx.srcBgr;
      }
    case MaskOverlay =>
      if !Empty(ctx.mask) {
        r := OverlayMaskOnImage(ctx.srcBgr, ctx.mask, ctx.display.overlayAlpha);
      } else {
        r := ctx.srcBgr;
      }
    case Processed =>
      if !Empty(ctx.processed) {
        r := ConvertToGreenWhite(ctx.processed);
      } else {
        r := ctx.srcBgr;
      }
  }
}
