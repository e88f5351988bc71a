/**
  What the editor's `drawCanvas` paints (components/Editor.tsx:81-158), as
  functions of the selection and of the photo's size: the cleared canvas,
  the photo under the selected filter, the frame's strokes and fills, and
  the sticker on top. A custom frame with a source is drawn later, when its
  image has loaded; what that continuation paints is given here too.
 */
module Composition {
  import opened Wrappers
  import opened Types
  import opened Constants
  import opened Canvas2D
  import opened StickerText

  /** What the editor's controls have selected. */
  datatype Selection = Selection(
    filter: FilterType,
    frame: FrameType,
    customFrameSrc: Option<string>,
    sticker: StickerType)

  /** `filterConfig ? filterConfig.filter : 'none'` for the selected filter. */
  function FilterString(f: FilterType): string {
    match FindFilter(FilterTypeName(f))
    case None => "none"
    case Some(c) => c.filter
  }

  /** Every filter finds its own table entry, so the `'none'` fallback is
      never taken; the `none` filter's own string is `none`. */
  lemma FilterStringFromTable(f: FilterType)
    ensures FilterString(f) == FILTERS[FilterIndex(f)].filter
    ensures f == NoFilter ==> FilterString(f) == "none"
  {
    FindFilterAt(f);
  }

  /** `selectedFrame === 'custom' && customFrameSrc`: a custom frame with a
      non-empty source is drawn asynchronously. */
  predicate UsesCustomFrame(sel: Selection) {
    sel.frame == Custom && sel.customFrameSrc.Some? && sel.customFrameSrc.value != ""
  }

  function MinSide(w: nat, h: nat): real {
    if w <= h then w as real else h as real
  }

  function MaxSide(w: nat, h: nat): real {
    if w <= h then h as real else w as real
  }

  function FullRect(w: nat, h: nat): Rect {
    Rect(0.0, 0.0, w as real, h as real)
  }

  /** The line width every non-empty frame sets: 5% of the short side. */
  function FrameLineWidth(w: nat, h: nat): real {
    MinSide(w, h) * 0.05
  }

  /** The polaroid's margins: 5% of the short side on three sides, 20% below. */
  function PolaroidPadding(w: nat, h: nat): real {
    MinSide(w, h) * 0.05
  }

  function PolaroidBottomPadding(w: nat, h: nat): real {
    MinSide(w, h) * 0.2
  }

  /** Where the polaroid redraws the photo. */
  function PolaroidInner(w: nat, h: nat): Rect {
    var p := PolaroidPadding(w, h);
    Rect(p, p, w as real - p * 2.0, h as real - (p + PolaroidBottomPadding(w, h)))
  }

  /** The cinema bars: a tenth of the height at the top and at the bottom. */
  function BarHeight(h: nat): real {
    h as real * 0.1
  }

  function TopBar(w: nat, h: nat): Rect {
    Rect(0.0, 0.0, w as real, BarHeight(h))
  }

  function BottomBar(w: nat, h: nat): Rect {
    Rect(0.0, h as real - BarHeight(h), w as real, BarHeight(h))
  }

  /** The literal colours the frames use. */
  const White: string := "white"
  const PaperWhite: string := "#f8f9fa"
  const Black: string := "black"
  const ClearBlack: string := "rgba(0,0,0,0)"
  const DarkBlack: string := "rgba(0,0,0,0.7)"

  /** The vignette: transparent inside a third of the short side, darkening
      to 70% black at the long side over 1.2, both circles centred. */
  function VignetteGradient(w: nat, h: nat): Style {
    RadialGradient(w as real / 2.0, h as real / 2.0, MinSide(w, h) / 3.0,
                   w as real / 2.0, h as real / 2.0, MaxSide(w, h) / 1.2,
                   [ColorStop(0.0, ClearBlack), ColorStop(1.0, DarkBlack)])
  }

  /** The drawing state after the synchronous frame stage, which starts from
      the reset state: `none` leaves it alone, every other frame (a custom one
      without a source included) sets the line width, then its own style. */
  function FrameState(frame: FrameType, w: nat, h: nat): Attrs {
    if frame == NoFrame then Defaults
    else
      var lined := Defaults.(lineWidth := FrameLineWidth(w, h));
      match frame
      case WhiteBorder => lined.(strokeStyle := Color(White))
      case Polaroid => lined.(fillStyle := Color(PaperWhite))
      case Cinema => lined.(fillStyle := Color(Black))
      case Vignette => lined.(fillStyle := VignetteGradient(w, h))
      case _ => lined
  }

  /** What the synchronous frame stage paints. */
  function FramePaints(frame: FrameType, src: string, w: nat, h: nat, filter: string): seq<Paint> {
    var st := FrameState(frame, w, h);
    match frame
    case WhiteBorder => [Paint(StrokeRect(FullRect(w, h)), st)]
    case Polaroid =>
      [Paint(FillRect(FullRect(w, h)), st),
       Paint(DrawImage(ImageOf(src), PolaroidInner(w, h)), st.(filter := filter))]
    case Cinema => [Paint(FillRect(TopBar(w, h)), st), Paint(FillRect(BottomBar(w, h)), st)]
    case Vignette => [Paint(FillRect(FullRect(w, h)), st)]
    case _ => []
  }

  /** Steps 1 to 4: the canvas cleared, then the photo drawn at its own size
      under the filter string. */
  function BasePaints(src: string, w: nat, h: nat, filter: string): seq<Paint> {
    [Paint(ClearRect(FullRect(w, h)), Defaults),
     Paint(DrawImage(ImageOf(src), FullRect(w, h)), Defaults.(filter := filter))]
  }

  /** Everything the image's `onload` handler paints synchronously, on a
      canvas just resized to the photo. */
  function CanvasPaints(sel: Selection, src: string, w: nat, h: nat): seq<Paint> {
    var filter := FilterString(sel.filter);
    var rest := if UsesCustomFrame(sel) then [] else
      (FramePaints(sel.frame, src, w, h, filter)
        + StickerPaints(sel.sticker, sel.frame, w, h, FrameState(sel.frame, w, h)));
    BasePaints(src, w, h, filter) + rest
  }

  /** The drawing state the handler leaves behind. */
  function CanvasState(sel: Selection, w: nat, h: nat): Attrs {
    if UsesCustomFrame(sel) then Defaults else FrameState(sel.frame, w, h)
  }

  /** The values the custom frame's `onload` closure captures: the frame's
      source, the canvas size, and the frame and sticker selected when the
      closure was made. */
  datatype FrameLoad = FrameLoad(src: string, w: nat, h: nat, frame: FrameType, sticker: StickerType)

  /** The continuation a drawing leaves pending, if any. */
  function PendingLoads(sel: Selection, w: nat, h: nat): seq<FrameLoad> {
    if UsesCustomFrame(sel) then [FrameLoad(sel.customFrameSrc.value, w, h, sel.frame, sel.sticker)] else []
  }

  /** What the continuation paints, under whatever drawing state the canvas
      has when it runs: the frame image stretched over the canvas, then the
      sticker. */
  function ContinuationPaints(load: FrameLoad, a: Attrs): seq<Paint> {
    [Paint(DrawImage(ImageOf(load.src), FullRect(load.w, load.h)), a)]
      + StickerPaints(load.sticker, load.frame, load.w, load.h, a)
  }

  /** Steps 1 to 4: the first paint clears the whole canvas, the second draws
      the photo over the whole canvas under the selected filter's string from
      the table; on a custom frame with a source nothing else is painted
      before the frame has loaded. */
  lemma {:induction false} BaseComesFirst(sel: Selection, src: string, w: nat, h: nat)
    ensures var ps := CanvasPaints(sel, src, w, h);
      && |ps| >= 2
      && ps[0] == Paint(ClearRect(Rect(0.0, 0.0, w as real, h as real)), Defaults)
      && ps[1].op == DrawImage(ImageOf(src), Rect(0.0, 0.0, w as real, h as real))
      && ps[1].state == Defaults.(filter := FILTERS[FilterIndex(sel.filter)].filter)
      && (UsesCustomFrame(sel) ==> |ps| == 2)
  {
    FilterStringFromTable(sel.filter);
  }

  /** The frame stage paints no text, and draws unfiltered except for the
      polaroid's redraw of the photo. */
  lemma FrameStageUnfiltered(frame: FrameType, src: string, w: nat, h: nat, filter: string, i: nat)
    requires i < |FramePaints(frame, src, w, h, filter)|
    ensures var p := FramePaints(frame, src, w, h, filter)[i];
      && !p.op.FillText?
      && if p.op.DrawImage? then
           frame == Polaroid && i == 1 && p.op.dest == PolaroidInner(w, h) && p.state.filter == filter
         else p.state.filter == "none"
  {
  }

  /** Split of the synchronous paints into their three stages. */
  lemma {:induction false} SyncStages(sel: Selection, src: string, w: nat, h: nat)
    requires !UsesCustomFrame(sel)
    ensures var filter := FilterString(sel.filter);
      CanvasPaints(sel, src, w, h) ==
        BasePaints(src, w, h, filter) + FramePaints(sel.frame, src, w, h, filter)
          + StickerPaints(sel.sticker, sel.frame, w, h, FrameState(sel.frame, w, h))
  {
  }

  /** The sticker is filled under the drawing state the frame stage left,
      whose filter is `none`. */
  lemma StickerStageUnfiltered(sticker: StickerType, frame: FrameType, w: nat, h: nat, j: nat)
    requires j < |StickerPaints(sticker, frame, w, h, FrameState(frame, w, h))|
    ensures var p := StickerPaints(sticker, frame, w, h, FrameState(frame, w, h))[j];
      p.op.FillText? && p.state.filter == "none"
  {
    StickerStageKeepsFilter(sticker, frame, w, h, FrameState(frame, w, h), j);
  }

  /** On the synchronous path the frame stage's paints follow the base stage... */
  lemma {:induction false} FrameStageAt(sel: Selection, src: string, w: nat, h: nat, i: nat)
    requires !UsesCustomFrame(sel)
    requires 2 <= i < 2 + |FramePaints(sel.frame, src, w, h, FilterString(sel.filter))|
    ensures i < |CanvasPaints(sel, src, w, h)|
    ensures CanvasPaints(sel, src, w, h)[i] == FramePaints(sel.frame, src, w, h, FilterString(sel.filter))[i - 2]
  {
  }

  /** ...and the sticker stage's paints follow the frame stage. */
  lemma {:induction false} StickerStageAt(sel: Selection, src: string, w: nat, h: nat, j: nat)
    requires !UsesCustomFrame(sel)
    requires j < |StickerPaints(sel.sticker, sel.frame, w, h, FrameState(sel.frame, w, h))|
    ensures var k := 2 + |FramePaints(sel.frame, src, w, h, FilterString(sel.filter))| + j;
      && k < |CanvasPaints(sel, src, w, h)|
      && CanvasPaints(sel, src, w, h)[k] == StickerPaints(sel.sticker, sel.frame, w, h, FrameState(sel.frame, w, h))[j]
  {
  }

  /** The filter is reset after the photo is drawn: every later paint is
      unfiltered except the polaroid's redraw of the photo, which carries the
      same filter. */
  lemma {:induction false} FilterResetAfterBase(sel: Selection, src: string, w: nat, h: nat, i: nat)
    requires 2 <= i < |CanvasPaints(sel, src, w, h)|
    ensures var p := CanvasPaints(sel, src, w, h)[i];
      if p.op.DrawImage? then
        sel.frame == Polaroid && i == 3 && p.op.dest == PolaroidInner(w, h)
        && p.state.filter == FilterString(sel.filter)
      else p.state.filter == "none"
  {
    var filter := FilterString(sel.filter);
    BaseComesFirst(sel, src, w, h);
    SyncStages(sel, src, w, h);
    var fs := FramePaints(sel.frame, src, w, h, filter);
    if i < 2 + |fs| {
      FrameStageAt(sel, src, w, h, i);
      FrameStageUnfiltered(sel.frame, src, w, h, filter, i - 2);
    } else {
      StickerStageAt(sel, src, w, h, i - 2 - |fs|);
      StickerStageUnfiltered(sel.sticker, sel.frame, w, h, i - 2 - |fs|);
    }
  }

  /** Without a sticker, or on a custom frame with a source (which defers
      the sticker to the continuation), no text is painted. */
  lemma {:induction false} NoTextWithoutSticker(sel: Selection, src: string, w: nat, h: nat, i: nat)
    requires sel.sticker == NoSticker || UsesCustomFrame(sel)
    requires i < |CanvasPaints(sel, src, w, h)|
    ensures !CanvasPaints(sel, src, w, h)[i].op.FillText?
  {
    BaseComesFirst(sel, src, w, h);
    if i >= 2 {
      var filter := FilterString(sel.filter);
      StickerPainted(sel.sticker, sel.frame, w, h, FrameState(sel.frame, w, h));
      SyncStages(sel, src, w, h);
      FrameStageAt(sel, src, w, h, i);
      FrameStageUnfiltered(sel.frame, src, w, h, filter, i - 2);
    }
  }

  /** With a sticker selected and no deferred custom frame, the last paint
      is the sticker's text, filled under the state the frame stage left. */
  lemma {:induction false} StickerIsLast(sel: Selection, src: string, w: nat, h: nat)
    requires sel.sticker != NoSticker && !UsesCustomFrame(sel)
    ensures var ps := CanvasPaints(sel, src, w, h);
      && |ps| >= 3
      && ps[|ps| - 1].op.FillText?
      && ps[|ps| - 1] == StickerPaint(STICKERS[StickerIndex(sel.sticker)], sel.frame, w, h, FrameState(sel.frame, w, h))
  {
    var st := FrameState(sel.frame, w, h);
    var c := STICKERS[StickerIndex(sel.sticker)];
    StickerPainted(sel.sticker, sel.frame, w, h, st);
    StickerKeepsFilter(c, sel.frame, w, h, st);
    SyncStages(sel, src, w, h);
  }

  /** A custom frame without a source takes the synchronous path: it paints
      no frame at all, yet leaves the frame line width set, and the sticker is
      still painted. */
  lemma {:induction false} CustomWithoutSource(sel: Selection, src: string, w: nat, h: nat)
    requires sel.frame == Custom && !UsesCustomFrame(sel)
    ensures CanvasPaints(sel, src, w, h) ==
      BasePaints(src, w, h, FilterString(sel.filter))
        + StickerPaints(sel.sticker, Custom, w, h, Defaults.(lineWidth := FrameLineWidth(w, h)))
    ensures PendingLoads(sel, w, h) == []
  {
    assert FramePaints(Custom, src, w, h, FilterString(sel.filter)) == [];
  }

  /** The continuation paints the frame image stretched over the whole canvas
      first and the sticker after it, so the sticker lies on top of the frame. */
  lemma {:induction false} ContinuationOrder(load: FrameLoad, a: Attrs)
    ensures var ps := ContinuationPaints(load, a);
      && ps[0].op == DrawImage(ImageOf(load.src), Rect(0.0, 0.0, load.w as real, load.h as real))
      && (load.sticker == NoSticker <==> |ps| == 1)
      && (load.sticker != NoSticker ==> |ps| == 2 && ps[1].op.FillText?)
  {
    StickerPainted(load.sticker, load.frame, load.w, load.h, a);
  }

  /** The white border strokes the canvas outline with a line 5% of the short
      side wide. */
  lemma WhiteBorderGeometry(src: string, w: nat, h: nat, filter: string)
    ensures var ps := FramePaints(WhiteBorder, src, w, h, filter);
      && |ps| == 1
      && ps[0].op == StrokeRect(Rect(0.0, 0.0, w as real, h as real))
      && ps[0].state.lineWidth == 0.05 * MinSide(w, h)
      && ps[0].state.strokeStyle == Color("white")
  {
  }

  /** The polaroid fills the canvas with its paper colour and redraws the
      filtered photo inside margins of 5% of the short side, with a bottom
      margin four times as deep; the inner picture has a positive size and
      lies inside the canvas. */
  lemma PolaroidGeometry(src: string, w: nat, h: nat, filter: string)
    requires w > 0 && h > 0
    ensures var ps := FramePaints(Polaroid, src, w, h, filter);
      var r := PolaroidInner(w, h);
      var p := 0.05 * MinSide(w, h);
      && |ps| == 2
      && ps[0].op == FillRect(Rect(0.0, 0.0, w as real, h as real))
      && ps[0].state.fillStyle == Color("#f8f9fa")
      && ps[1].op == DrawImage(ImageOf(src), r) && ps[1].state.filter == filter
      && r.x == p && r.y == p && p > 0.0
      && r.w > 0.0 && r.h > 0.0
      && r.x + r.w == w as real - p
      && h as real - (r.y + r.h) == 4.0 * p
  {
  }

  /** The sticker's polaroid anchor at 92% of the height falls in the wide
      bottom margin whenever the photo is at least 2/5 as wide as it is tall
      (on a narrower photo it falls on the picture). */
  lemma PolaroidCaptionInMargin(w: nat, h: nat)
    requires 5 * w >= 2 * h
    ensures var r := PolaroidInner(w, h);
      r.y + r.h <= AnchorY(Polaroid, h) <= h as real
  {
  }

  /** The cinema bars are a tenth of the height each, one against the top
      edge and one against the bottom edge; on a non-empty canvas they do not
      overlap. */
  lemma CinemaGeometry(src: string, w: nat, h: nat, filter: string)
    ensures var ps := FramePaints(Cinema, src, w, h, filter);
      && |ps| == 2
      && ps[0].op == FillRect(Rect(0.0, 0.0, w as real, 0.1 * h as real))
      && ps[1].op == FillRect(Rect(0.0, 0.9 * h as real, w as real, 0.1 * h as real))
      && ps[0].state.fillStyle == Color("black") && ps[1].state.fillStyle == Color("black")
      && ps[0].op.r.y + ps[0].op.r.h <= ps[1].op.r.y
      && ps[1].op.r.y + ps[1].op.r.h == h as real
  {
  }

  /** The vignette's gradient is centred on the canvas; its clear inner
      circle fits inside the canvas and its outer circle reaches past every
      corner, so the darkening never completes inside the picture. */
  lemma {:induction false} VignetteGeometry(src: string, w: nat, h: nat, filter: string)
    requires w > 0 && h > 0
    ensures var ps := FramePaints(Vignette, src, w, h, filter);
      var g := ps[0].state.fillStyle;
      && |ps| == 1
      && ps[0].op == FillRect(Rect(0.0, 0.0, w as real, h as real))
      && g.RadialGradient?
      && g.x0 == g.x1 == w as real / 2.0 && g.y0 == g.y1 == h as real / 2.0
      && g.r0 <= g.x0 && g.r0 <= g.y0
      && g.r0 < g.r1
      && g.x0 * g.x0 + g.y0 * g.y0 < g.r1 * g.r1
  {
    var g := VignetteGradient(w, h);
    var m := MaxSide(w, h);
    var x, y := w as real / 2.0, h as real / 2.0;
    assert x <= m / 2.0 && y <= m / 2.0;
    assert x * x <= (m / 2.0) * (m / 2.0) && y * y <= (m / 2.0) * (m / 2.0) by {
      SquareMonotone(x, m / 2.0);
      SquareMonotone(y, m / 2.0);
    }
    assert (m / 2.0) * (m / 2.0) + (m / 2.0) * (m / 2.0) == m * m / 2.0;
    assert g.r1 * g.r1 == m * m / 1.44;
    assert m * m > 0.0;
  }

  lemma SquareMonotone(a: real, b: real)
    requires 0.0 <= a <= b
    ensures a * a <= b * b
  {
    assert a * a <= a * b;
    assert a * b <= b * b;
  }
}
