/**
  The editor component (components/Editor.tsx) as a class: its selections,
  its pinned frame, the canvas it draws on, the preference store it reads
  and writes, and the custom-frame continuations still waiting for their
  image. Each method performs one handler or drawing routine step by step
  on the canvas and is specified by the functions of Composition, Pinning
  and StickerText.
 */
module EditorComponent {
  import opened Wrappers
  import opened Types
  import opened Constants
  import opened Canvas2D
  import opened StickerText
  import opened Composition
  import opened Pinning

  /** The browser's `localStorage`: string keys to string values. */
  class Storage {
    var items: map<string, string>

    constructor (items0: map<string, string>)
      ensures items == items0
    {
      items := items0;
    }

    /** The stored value, if any. */
    function Get(key: string): (v: Option<string>)
      reads this
      ensures v.Some? <==> key in items
      ensures v.Some? ==> v.value == items[key]
    {
      if key in items then Some(items[key]) else None
    }

    method GetItem(key: string) returns (v: Option<string>)
      ensures v == Get(key)
    {
      v := Get(key);
    }

    method SetItem(key: string, value: string)
      modifies this
      ensures items == old(items)[key := value]
    {
      items := items[key := value];
    }

    method RemoveItem(key: string)
      modifies this
      ensures items == old(items) - {key}
    {
      items := items - {key};
    }
  }

  class Editor {
    const imageSrc: string
    const canvas: Canvas
    const store: Storage
    var selectedFilter: FilterType
    var selectedFrame: FrameType
    var customFrameSrc: Option<string>
    var selectedSticker: StickerType
    var pinnedFrame: Option<string>
    /** Photo loads started by `drawCanvas` whose `onload` has not run yet,
        oldest first, each with the selection its render's closure captured. */
    var baseLoads: seq<Selection>
    /** Custom-frame continuations whose image has not loaded yet, oldest first. */
    var pending: seq<FrameLoad>

    /** A new editor: nothing selected, nothing pinned, nothing pending. */
    constructor (imageSrc: string, canvas: Canvas, store: Storage)
      ensures this.imageSrc == imageSrc && this.canvas == canvas && this.store == store
      ensures selectedFilter == NoFilter && selectedFrame == NoFrame && selectedSticker == NoSticker
      ensures customFrameSrc == None && pinnedFrame == None && baseLoads == [] && pending == []
    {
      this.imageSrc := imageSrc;
      this.canvas := canvas;
      this.store := store;
      selectedFilter, selectedFrame, selectedSticker := NoFilter, NoFrame, NoSticker;
      customFrameSrc, pinnedFrame, baseLoads, pending := None, None, [], [];
    }

    /** What the controls currently select. */
    function Selected(): Selection
      reads this
    {
      Selection(selectedFilter, selectedFrame, customFrameSrc, selectedSticker)
    }

    /** The pin state machine's view of the editor and its store. */
    function PinView(): PinState
      reads this, store
    {
      PinState(selectedFrame, pinnedFrame, store.Get(STORAGE_KEY_DEFAULT_FRAME))
    }

    /** The mount effect: restore the pinned frame from the store. */
    method OnMount()
      modifies this`pinnedFrame, this`selectedFrame
      ensures PinView() == MountRestore(old(store.Get(STORAGE_KEY_DEFAULT_FRAME)), old(PinView()))
    {
      var saved := store.GetItem(STORAGE_KEY_DEFAULT_FRAME);
      if saved.Some? && saved.value != "" {
        pinnedFrame := saved;
        if FrameListed(saved.value) {
          FrameTable();
          selectedFrame := ParseFrameType(saved.value).value;
        }
      }
    }

    /** `drawSticker`: nothing for `none` or a name the table lacks;
        otherwise the found entry's text, filled by FillSticker. */
    method DrawSticker(sticker: StickerType, w: nat, h: nat, frame: FrameType)
      modifies canvas`paints, canvas`stack, canvas`attrs
      ensures canvas.paints == old(canvas.paints) + StickerPaints(sticker, frame, w, h, old(canvas.attrs))
      ensures canvas.attrs == old(canvas.attrs) && canvas.stack == old(canvas.stack)
    {
      if sticker != NoSticker {
        var config := FindSticker(sticker);
        if config.Some? {
          FillSticker(config.value, w, h, frame);
        }
      }
    }

    /** The body of `drawSticker` for a found entry: inside a save/restore
        pair, set the font, colours, alignment and shadow and fill the text;
        the drawing state and its stack come back as they were. */
    method FillSticker(c: StickerConfig, w: nat, h: nat, frame: FrameType)
      modifies canvas`paints, canvas`stack, canvas`attrs
      ensures canvas.paints == old(canvas.paints) + [StickerPaint(c, frame, w, h, old(canvas.attrs))]
      ensures canvas.attrs == old(canvas.attrs) && canvas.stack == old(canvas.stack)
    {
      var a0 := canvas.attrs;
      canvas.Save();
      var scale := ScaleFactor(w, h);
      var font := Font(Bold, FontSize(FontBaseSize(c.font), w, h), FontFamily(c.font));
      canvas.SetFont(font);
      canvas.SetFillStyle(Color(c.color));
      canvas.SetTextAlign(Centre);
      canvas.SetTextBaseline(Middle);
      canvas.SetShadowColor(TextShadow);
      canvas.SetShadowBlur(10.0 * scale);
      canvas.SetShadowOffset(2.0 * scale, 2.0 * scale);
      var x := w as real / 2.0;
      var y := 0.85 * h as real;
      if frame == Polaroid {
        y := 0.92 * h as real;
        canvas.SetFillStyle(Color(PolaroidInk));
        canvas.SetShadowColor(Transparent);
      }
      assert canvas.attrs == StickerState(c, frame, w, h, a0);
      canvas.Issue(FillText(c.text, x, y));
      assert canvas.paints == old(canvas.paints) + [StickerPaint(c, frame, w, h, a0)];
      canvas.Restore();
    }

    /** Step 5 on the synchronous path: the selected frame's strokes and
        fills, starting from the reset drawing state. */
    method DrawFrame(frame: FrameType, w: nat, h: nat, filter: string)
      requires canvas.attrs == Defaults
      modifies canvas`paints, canvas`attrs
      ensures canvas.paints == old(canvas.paints) + FramePaints(frame, imageSrc, w, h, filter)
      ensures canvas.attrs == FrameState(frame, w, h)
    {
      if frame != NoFrame {
        canvas.SetLineWidth(MinSide(w, h) * 0.05);
        if frame == WhiteBorder {
          canvas.SetStrokeStyle(Color(White));
          canvas.Issue(StrokeRect(Rect(0.0, 0.0, w as real, h as real)));
        } else if frame == Polaroid {
          var padding := MinSide(w, h) * 0.05;
          var bottomPadding := MinSide(w, h) * 0.2;
          canvas.SetFillStyle(Color(PaperWhite));
          canvas.Issue(FillRect(Rect(0.0, 0.0, w as real, h as real)));
          var innerW := w as real - padding * 2.0;
          var innerH := h as real - (padding + bottomPadding);
          canvas.SetFilter(filter);
          canvas.Issue(DrawImage(ImageOf(imageSrc), Rect(padding, padding, innerW, innerH)));
          canvas.SetFilter(NoCssFilter);
        } else if frame == Cinema {
          var barHeight := h as real * 0.1;
          canvas.SetFillStyle(Color(Black));
          canvas.Issue(FillRect(Rect(0.0, 0.0, w as real, barHeight)));
          canvas.Issue(FillRect(Rect(0.0, h as real - barHeight, w as real, barHeight)));
        } else if frame == Vignette {
          canvas.SetFillStyle(VignetteGradient(w, h));
          canvas.Issue(FillRect(Rect(0.0, 0.0, w as real, h as real)));
        }
      }
    }

    /** `drawCanvas`, run by the effect after a render that changed a
        selection: it starts loading the photo, and the `onload` closure it
        installs keeps the selection of that render. */
    method DrawCanvas()
      modifies this`baseLoads
      ensures baseLoads == old(baseLoads) + [Selected()]
    {
      baseLoads := baseLoads + [Selected()];
    }

    /** The photo load queued at position `i` completes with a decoded photo
        of `imgW` by `imgH` pixels: its `onload` paints with the selection it
        captured, whatever the controls select now, and nothing checks that
        it is the latest load. */
    method CompleteBaseLoad(i: nat, imgW: nat, imgH: nat)
      requires i < |baseLoads|
      modifies canvas, this`baseLoads, this`pending
      ensures baseLoads == old(baseLoads[..i] + baseLoads[i + 1..])
      ensures canvas.width == imgW && canvas.height == imgH
      ensures canvas.paints == CanvasPaints(old(baseLoads[i]), imageSrc, imgW, imgH)
      ensures canvas.attrs == CanvasState(old(baseLoads[i]), imgW, imgH) && canvas.stack == []
      ensures pending == old(pending) + PendingLoads(old(baseLoads[i]), imgW, imgH)
    {
      var sel := baseLoads[i];
      baseLoads := baseLoads[..i] + baseLoads[i + 1..];
      PaintBase(sel, imgW, imgH);
    }

    /** A photo that never loads never runs its `onload`. */
    method FailBaseLoad(i: nat)
      requires i < |baseLoads|
      modifies this`baseLoads
      ensures baseLoads == old(baseLoads[..i] + baseLoads[i + 1..])
    {
      baseLoads := baseLoads[..i] + baseLoads[i + 1..];
    }

    /** The body of the photo's `onload` under the captured selection `sel`:
        resize and clear the canvas, draw the photo under the selected
        filter, then either queue the custom frame's continuation or draw
        the frame and the sticker. */
    method PaintBase(sel: Selection, imgW: nat, imgH: nat)
      modifies canvas, this`pending
      ensures canvas.width == imgW && canvas.height == imgH
      ensures canvas.paints == CanvasPaints(sel, imageSrc, imgW, imgH)
      ensures canvas.attrs == CanvasState(sel, imgW, imgH) && canvas.stack == []
      ensures pending == old(pending) + PendingLoads(sel, imgW, imgH)
    {
      canvas.SetWidth(imgW);
      canvas.SetHeight(imgH);
      var w, h := imgW, imgH;
      canvas.Issue(ClearRect(Rect(0.0, 0.0, w as real, h as real)));
      var filterConfig := FindFilter(FilterTypeName(sel.filter));
      var filter := if filterConfig.Some? then filterConfig.value.filter else NoCssFilter;
      canvas.SetFilter(filter);
      canvas.Issue(DrawImage(ImageOf(imageSrc), Rect(0.0, 0.0, w as real, h as real)));
      canvas.SetFilter(NoCssFilter);
      assert canvas.paints == BasePaints(imageSrc, w, h, FilterString(sel.filter));
      if sel.frame == Custom && sel.customFrameSrc.Some? && sel.customFrameSrc.value != "" {
        pending := pending + [FrameLoad(sel.customFrameSrc.value, w, h, sel.frame, sel.sticker)];
      } else {
        DrawFrame(sel.frame, w, h, filter);
        DrawSticker(sel.sticker, w, h, sel.frame);
        SyncStages(sel, imageSrc, w, h);
      }
    }

    /** The custom frame's image `onload`: the continuation queued at
        position `i` draws the frame stretched over the size it captured,
        then the sticker it captured, under whatever drawing state the
        canvas has now. Nothing checks that the continuation is still the
        latest one. */
    method CompleteFrameLoad(i: nat)
      requires i < |pending|
      modifies canvas`paints, canvas`stack, canvas`attrs, this`pending
      ensures canvas.paints == old(canvas.paints) + ContinuationPaints(old(pending[i]), old(canvas.attrs))
      ensures canvas.attrs == old(canvas.attrs) && canvas.stack == old(canvas.stack)
      ensures pending == old(pending[..i] + pending[i + 1..])
    {
      var load := pending[i];
      pending := pending[..i] + pending[i + 1..];
      canvas.Issue(DrawImage(ImageOf(load.src), Rect(0.0, 0.0, load.w as real, load.h as real)));
      DrawSticker(load.sticker, load.w, load.h, load.frame);
    }

    /** A custom frame whose image never loads never runs its continuation. */
    method FailFrameLoad(i: nat)
      requires i < |pending|
      modifies this`pending
      ensures pending == old(pending[..i] + pending[i + 1..])
    {
      pending := pending[..i] + pending[i + 1..];
    }

    /** `handleFrameClick`: the custom frame opens the file picker instead of
        selecting anything; every other frame is selected. */
    method HandleFrameClick(name: FrameType) returns (openPicker: bool)
      modifies this`selectedFrame
      ensures openPicker <==> name == Custom
      ensures selectedFrame == if name == Custom then old(selectedFrame) else name
    {
      if name == Custom {
        openPicker := true;
      } else {
        openPicker := false;
        selectedFrame := name;
      }
    }

    /** `handleCustomFrameSelect`, given the data URL the file reader produced
        (None when no file was chosen): a non-empty result becomes the custom
        frame's source and selects the custom frame. */
    method HandleCustomFrameSelect(result: Option<string>)
      modifies this`customFrameSrc, this`selectedFrame
      ensures Truthy(result) ==> customFrameSrc == result && selectedFrame == Custom
      ensures !Truthy(result) ==> customFrameSrc == old(customFrameSrc) && selectedFrame == old(selectedFrame)
    {
      if result.Some? && result.value != "" {
        customFrameSrc := result;
        selectedFrame := Custom;
      }
    }

    /** The filter and sticker buttons set their selection. */
    method SelectFilter(f: FilterType)
      modifies this`selectedFilter
      ensures selectedFilter == f
    {
      selectedFilter := f;
    }

    method SelectSticker(s: StickerType)
      modifies this`selectedSticker
      ensures selectedSticker == s
    {
      selectedSticker := s;
    }

    /** `togglePinFrame`: performs the pin transition on the field and the
        store, returns the alert it shows, and leaves every other key of the
        store alone. */
    method TogglePinFrame() returns (alert: Option<string>)
      modifies this`pinnedFrame, store
      ensures PinView() == TogglePin(old(PinView()))
      ensures alert == if selectedFrame == Custom then Some(CUSTOM_PIN_ALERT) else None
      ensures store.items - {STORAGE_KEY_DEFAULT_FRAME} == old(store.items) - {STORAGE_KEY_DEFAULT_FRAME}
    {
      if selectedFrame == Custom {
        alert := Some(CUSTOM_PIN_ALERT);
        return;
      }
      alert := None;
      var name := FrameTypeName(selectedFrame);
      if pinnedFrame == Some(name) {
        store.RemoveItem(STORAGE_KEY_DEFAULT_FRAME);
        pinnedFrame := None;
      } else {
        store.SetItem(STORAGE_KEY_DEFAULT_FRAME, name);
        pinnedFrame := Some(name);
      }
    }
  }
}
