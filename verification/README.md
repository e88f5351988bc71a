# Momentos (instafiltros) — a Dafny model of the photo editor's logic

Momentos is a small React photo app with three screens:
- a **camera**, which captures a frame of the video at a fixed resolution;
- an **editor**, which recomposes the photo on a canvas with a filter, a frame and a text sticker;
- a **gallery**.

This project models the logic that decides what gets drawn. It does not model the pixels.
- A 2D canvas context is a class (`Canvas2D.Canvas`). It holds:
  - the canvas size;
  - the current drawing state (filter, fill and stroke styles, line width, font, text alignment, shadow, transform);
  - the `save`/`restore` stack;
  - the ordered list of drawing commands issued so far.
  Each command is paired with the state it was issued under.
- The editor's `drawCanvas` and `drawSticker` and the camera's `capturePhoto` are methods of the `Editor` and `Camera` classes that act on such a canvas. Each is proved equal to a specification function that lists the commands:
  - `Composition.CanvasPaints`;
  - `StickerText.StickerPaints`;
  - the cover-fit and mirror functions of `CameraComponent`.
- Lemmas then state what those command lists guarantee:
  - the draw order;
  - where the filter applies;
  - the per-frame geometry;
  - the sticker's font, anchor and shadow;
  - that nothing is drawn without a sticker.
- The default-frame pin is a state machine over three things: the selected frame, the pinned name, and the value under the `localStorage` key. It is in `Pinning`, and the `Editor` class runs it against its own fields and a `Storage` class.
- The camera's toggles, its `getUserMedia` retry rule and its error messages are in `CameraComponent`.
- The three-screen navigation of the app shell is in `AppComponent`.
- The tables of filters, frames and stickers are constant sequences in `Constants`, with the `find` and `some` lookups the components run over them.
- The JavaScript string operations the sticker's font parse relies on are in `StringOps`: `split`, `join`, a global `replace` of one character, the first `\d+` match and `parseInt` of a digit run.

All layout arithmetic is over `real`.

Source behaviour that the model reproduces as written:
- **The sticker font size is the font weight.** `font.match(/\d+/)` takes the first digit run of the font string. For every shipped sticker font that run is the weight: 700 or 500, not the 80 or 60 pixel size. The model reproduces this (`StickerText.ShippedFontsParse`, `StickerText.GratidaoOnLandscape`).
- **The pin button is a toggle, not an idempotent "pin".** Pressing it twice restores the starting state only when nothing was pinned or the selected frame itself was. If a different frame was pinned, the first press replaces it and the second press drops it (`Pinning.ToggleTwice`, `Pinning.ToggleNotIdempotent`).
- **Nothing guards either image load against staleness.** Each `drawCanvas` starts a photo load whose `onload` keeps the selection of the render that started it. Any photo load still waiting may complete, in any order, and it repaints the canvas with that captured selection even if the user has since chosen another (`EditorComponent.Editor.CompleteBaseLoad`). Likewise any custom-frame continuation still waiting may fire, and it draws over whatever the canvas holds at that point (`EditorComponent.Editor.CompleteFrameLoad`).
- **The "vivid" filter is named `contrast`** (label "Vívido"). The model uses that name.

## Model

| member | source | states |
|---|---|---|
| Types.ParseFrameType | types.ts:22 | a frame name parses exactly when some frame type has that name, and it parses to that type |
| Types.NamesInjective | types.ts:5-29 | distinct aspect ratios, filters, frames and stickers have distinct names, so the unions are closed sets of strings |
| Constants.FindFirst | components/Editor.tsx:47 | `find` yields nothing exactly when no element matches; otherwise it yields the element at the first matching index |
| Constants.FindUnique | components/Editor.tsx:102 | when at most one element matches, `find` yields the element that matches |
| Constants.Find | components/Editor.tsx:47 | `Array.prototype.find` over a sequence; FindFirst characterises it: nothing exactly when no element matches, otherwise the first match |
| Constants.FindFilter | components/Editor.tsx:102 | `FILTERS.find(f => f.name === selectedFilter)`; FindFilterFinds and FindFilterAt state that it always finds the entry of that name, at the filter's index |
| Constants.FindSticker | components/Editor.tsx:47 | `STICKERS.find(s => s.name === selectedSticker)`; FindStickerFinds and FindStickerAt state that it always finds the entry of that name, at the sticker's index |
| Constants.FrameListed | components/Editor.tsx:38 | `FRAMES.some(f => f.name === savedFrame)`; FrameTable states that it holds exactly for the names that parse as a frame type |
| Constants.ParseFilterName | types.ts:14 | a filter name parses only to the filter type of that name, and fails only when no filter type has it |
| Constants.FilterTable | constants.ts:3-11 | the filter names are pairwise distinct, every filter type is listed, and every listed name is a filter type |
| Constants.FrameTable | constants.ts:13-20 | the frame names are pairwise distinct, every frame type is listed (`custom` included), and a name is listed exactly when it parses as a frame type |
| Constants.StickerTable | constants.ts:22-29 | the sticker names are pairwise distinct, every sticker type is listed, and exactly the `none` entry has empty text, empty colour and empty font |
| Constants.FindStickerFinds | components/Editor.tsx:47 | looking up any sticker type finds the table entry of that name |
| Constants.StickerIndex | constants.ts:22-29 | every sticker type has an index in the table whose entry carries its name |
| Constants.FindStickerAt | components/Editor.tsx:47 | the sticker lookup yields the entry at that type's index |
| Constants.FindFilterFinds | components/Editor.tsx:102-103 | looking up any filter finds the entry of that name, and the `none` entry's filter string is `none` |
| Constants.FilterIndex | constants.ts:3-11 | every filter type has an index in the table whose entry carries its name |
| Constants.FindFilterAt | components/Editor.tsx:102 | the filter lookup yields the entry at that type's index |
| Constants.FilterStringIsJoinedChain | constants.ts:5-10 | each filter string other than `none` is its chain of `primitive(arg)` tokens, in a fixed order, joined by single spaces |
| Constants.FilterStringsAreChains | constants.ts:5-10 | splitting each filter string other than `none` on spaces gives back exactly its token chain |
| Constants.ChainArgsHaveNoSpace | constants.ts:5-10 | each such chain has at least one token and no token holds a space |
| StringOps.Split | components/Editor.tsx:53 | `split` always yields at least one part |
| StringOps.JoinSplit | components/Editor.tsx:53 | joining the parts of a split with the same separator gives back the string, and no part holds the separator |
| StringOps.SplitSepFree | components/Editor.tsx:53 | a string without the separator splits into itself alone |
| StringOps.SplitAppend | components/Editor.tsx:53 | splitting `a + sep + b` gives the parts of `a` followed by the parts of `b` |
| StringOps.SplitJoin | components/Editor.tsx:53 | splitting a join of separator-free parts gives back those parts |
| StringOps.Join | components/Editor.tsx:53 | `parts.join(sep)`; JoinSplit and SplitJoin state that it is the inverse of `split` on separator-free parts |
| StringOps.RemoveChar | components/Editor.tsx:53 | the global `replace(/"/g, '')` leaves no occurrence of the character, never lengthens the string, and introduces no character |
| StringOps.RemoveCharAppend | components/Editor.tsx:53 | removing a character distributes over concatenation |
| StringOps.RemoveCharAbsent | components/Editor.tsx:53 | removing a character that does not occur changes nothing |
| StringOps.LeadingDigits | components/Editor.tsx:52 | the longest prefix made only of digits |
| StringOps.FirstDigitRun | components/Editor.tsx:52 | `match(/\d+/)` fails exactly when the string has no digit; otherwise it is the longest digit run starting at the first digit |
| StringOps.FirstDigitRunAtFront | components/Editor.tsx:52 | a string that starts with a maximal digit run matches that run |
| StringOps.LeadingDigitsOfRun | components/Editor.tsx:52 | a maximal leading digit run is the leading-digit prefix |
| StringOps.DigitsValue | components/Editor.tsx:52 | `parseInt` of a digit run in base ten; DigitsValueAppend and DigitsValueBound characterise it as positional notation |
| StringOps.Pow10 | components/Editor.tsx:52 | the place value of a digit: ten to a power, never below one |
| StringOps.DigitsValueAppend | components/Editor.tsx:52 | the value of two digit runs written one after the other is the first shifted by the length of the second, plus the second |
| StringOps.DigitsValueBound | components/Editor.tsx:52 | a run of n digits is worth less than ten to the n |
| StickerText.FontFamily | components/Editor.tsx:53 | the parsed family is never empty and holds no double quote |
| StickerText.FontBaseSize | components/Editor.tsx:52 | `parseInt(font.match(/\d+/)?.[0] \|\| '60')`; FontBaseSizeReadsFirstRun and FontFallbacks state that it is the value of the first digit run, or 60 when there is no digit |
| StickerText.FontBaseSizeReadsFirstRun | components/Editor.tsx:52 | the size read from a font string is the value of the digit run that starts at its first digit |
| StickerText.FontFallbacks | components/Editor.tsx:52-53 | a font string with no digit matches no run and falls back to size 60, and only such a string matches no run; with fewer than three words the family is `sans-serif`; the empty font gets both |
| StickerText.FamilyOfShapedFont | components/Editor.tsx:53 | on a font of the form `<weight> <size>px "<family>"`, the family parse yields the family unquoted, spaces included |
| StickerText.BaseSizeOfLeadingRun | components/Editor.tsx:52 | a font string starting with a maximal digit run has that run's value as its size |
| StickerText.BaseSizeOfShapedFont | components/Editor.tsx:52 | on a font of that shape, the size read is the weight |
| StickerText.ShapedFontParse | components/Editor.tsx:52-53 | on a font of that shape, the parse yields the weight as the size and the unquoted family |
| StickerText.BomDiaFont | constants.ts:24 | the Bom Dia font has the shape `700 80px "Dancing Script"` |
| StickerText.BoaTardeFont | constants.ts:25 | the Boa Tarde font has the shape `700 80px "Playfair Display"` |
| StickerText.BoaNoiteFont | constants.ts:26 | the Boa Noite font has the shape `700 80px "Dancing Script"` |
| StickerText.GratidaoFont | constants.ts:27 | the Gratidão font has the shape `500 60px "Inter"` |
| StickerText.FelicidadeFont | constants.ts:28 | the Felicidade font has the shape `700 60px "Dancing Script"` |
| StickerText.ShippedFontsParse | constants.ts:24-28 | every shipped sticker font parses to its weight (700 or 500) as the size and to its unquoted family |
| StickerText.ShippedFontOf | constants.ts:24-28 | every sticker other than `none` has the weight and family shown above |
| StickerText.ScaleFactor | components/Editor.tsx:51 | the scale is non-negative, and at least 1 when both sides are at least 1080 |
| StickerText.FontSize | components/Editor.tsx:52 | the parsed size times the scale; UnitScale states that it is the parsed size unscaled at a short side of 1080 |
| StickerText.StickerState | components/Editor.tsx:55-72 | the drawing state the sticker text is filled under; StickerPlacement states each attribute it sets and those it keeps |
| StickerText.AnchorY | components/Editor.tsx:66-69 | the text's vertical anchor, 0.85h or 0.92h on a polaroid; StickerPlacement states it, and Composition.PolaroidCaptionInMargin that on a polaroid at least 2/5 as wide as tall it falls in the bottom margin |
| StickerText.StickerPaint | components/Editor.tsx:49-75 | the one `fillText` of a sticker entry; StickerPlacement and StickerKeepsFilter state its position, text and state |
| StickerText.StickerPaints | components/Editor.tsx:45-78 | what `drawSticker` issues; StickerPainted states that it is nothing for `none` and exactly the entry's `fillText` otherwise |
| StickerText.UnitScale | components/Editor.tsx:51-52 | with a short side of 1080, the font size is the parsed size unscaled |
| StickerText.StickerPainted | components/Editor.tsx:46-48 | no command is issued exactly when the sticker is `none`; otherwise exactly one command is issued, for the table entry of that name |
| StickerText.StickerKeepsFilter | components/Editor.tsx:49-75 | the sticker is a `fillText` and keeps the filter in effect |
| StickerText.StickerStageKeepsFilter | components/Editor.tsx:45-78 | every command `drawSticker` issues is a `fillText` under the filter already in effect |
| StickerText.StickerPlacement | components/Editor.tsx:55-72 | the anchor is (w/2, 0.85h), or 0.92h on a polaroid frame, and it lies within the canvas; the fill is `#333` on a polaroid and the sticker colour otherwise; the shadow is `transparent` on a polaroid and `rgba(0,0,0,0.5)` otherwise; blur is 10s and offsets are 2s; the font is bold at the parsed size times s in the parsed family; the text is centred and middle-aligned; the filter, transform, line width and stroke are left as they were |
| StickerText.ShippedStickerFont | components/Editor.tsx:51-55 | every shipped sticker draws its own text in bold at its weight (500 for Gratidão, 700 otherwise) times the scale, in its family |
| StickerText.GratidaoOnLandscape | components/Editor.tsx:51-74 | on a 1920×1080 photo the Gratidão sticker is filled at (960, 918) in bold 500 px Inter, not at its 60 px |
| Composition.FilterStringFromTable | components/Editor.tsx:102-103 | the filter string applied is the table entry of the selected filter, and `none` for the `none` filter |
| Composition.FilterString | components/Editor.tsx:102-103 | the filter string `drawCanvas` applies; FilterStringFromTable states that it is the selected filter's table entry |
| Composition.UsesCustomFrame | components/Editor.tsx:110 | the asynchronous path is taken exactly for the custom frame with a non-empty source; CustomWithoutSource states what happens otherwise |
| Composition.BasePaints | components/Editor.tsx:93-107 | the clear and the filtered photo draw; BaseComesFirst states their rectangles and states |
| Composition.FrameState | components/Editor.tsx:123-153 | the drawing state each frame leaves behind; StickerStageUnfiltered states that its filter is `none`, so the sticker is drawn unfiltered |
| Composition.FramePaints | components/Editor.tsx:123-153 | the commands of each frame; WhiteBorderGeometry, PolaroidGeometry, CinemaGeometry and VignetteGeometry give each frame's rectangles and styles, and FrameStageUnfiltered where the filter applies |
| Composition.CanvasPaints | components/Editor.tsx:91-157 | the commands of the photo's `onload`; BaseComesFirst, SyncStages, FilterResetAfterBase, NoTextWithoutSticker and StickerIsLast state their order and filters |
| Composition.CanvasState | components/Editor.tsx:91-157 | the drawing state the `onload` leaves: the reset state on the custom path, otherwise the state of the frame drawn |
| Composition.PendingLoads | components/Editor.tsx:110-120 | the continuation the `onload` leaves pending: one exactly on the asynchronous path, carrying the frame source, the size and the selection it captured; CustomWithoutSource states that a custom frame without a source leaves none |
| Composition.ContinuationPaints | components/Editor.tsx:115-120 | the commands of the custom frame's continuation; ContinuationOrder states their order |
| Composition.BaseComesFirst | components/Editor.tsx:93-107 | the first command clears the whole canvas under the default state; the second draws the photo at (0,0,w,h) with only the selected filter string set; on the custom-frame path nothing else is drawn synchronously |
| Composition.FrameStageUnfiltered | components/Editor.tsx:124-152 | no frame command fills text; the only image draw of a frame is the polaroid's inner redraw, under the photo's filter; every other frame command is unfiltered |
| Composition.SyncStages | components/Editor.tsx:121-155 | off the custom path, the commands are the base stage, then the frame stage, then the sticker stage drawn under the state the frame left |
| Composition.StickerStageUnfiltered | components/Editor.tsx:155 | every sticker command on the synchronous path is a `fillText` with the filter reset to `none` |
| Composition.FrameStageAt | components/Editor.tsx:121-153 | off the custom path, the commands after the base stage are the frame's commands, in order |
| Composition.StickerStageAt | components/Editor.tsx:154-155 | off the custom path, the commands after the frame stage are the sticker's commands, in order |
| Composition.FilterResetAfterBase | components/Editor.tsx:101-152 | after the base image every command is unfiltered, except the polaroid's inner redraw, which is command 3 and uses the selected filter |
| Composition.NoTextWithoutSticker | components/Editor.tsx:46 | with no sticker, or on the custom-frame path, the synchronous commands fill no text |
| Composition.StickerIsLast | components/Editor.tsx:154-155 | with a sticker off the custom path, the last command is that sticker's `fillText`, drawn after the base and frame |
| Composition.CustomWithoutSource | components/Editor.tsx:110-155 | the custom frame with no uploaded source takes the synchronous path: no frame command, then the sticker, and no continuation queued |
| Composition.ContinuationOrder | components/Editor.tsx:115-120 | the continuation first draws the frame image stretched to (0,0,w,h), then the sticker's `fillText` exactly when a sticker is selected |
| Composition.WhiteBorderGeometry | components/Editor.tsx:124-128 | white-border strokes (0,0,w,h) in white at line width 0.05·min(w,h) |
| Composition.PolaroidGeometry | components/Editor.tsx:129-140 | polaroid fills (0,0,w,h) with `#f8f9fa`, then redraws the filtered photo into a rectangle inset by p = 0.05·min on the left, top and right and by 4p more at the bottom |
| Composition.PolaroidCaptionInMargin | components/Editor.tsx:129-136 | when the photo is not much taller than wide (5w ≥ 2h), the polaroid sticker anchor lies in the bottom margin, below the inner picture |
| Composition.CinemaGeometry | components/Editor.tsx:141-145 | cinema fills black bars (0,0,w,0.1h) and (0,0.9h,w,0.1h), which do not overlap and end at the bottom edge |
| Composition.VignetteGeometry | components/Editor.tsx:146-151 | vignette fills (0,0,w,h) with a radial gradient centred at (w/2,h/2); its inner circle of radius min/3 fits inside the canvas, and its outer radius max/1.2 reaches past every corner |
| Canvas2D.ComposeApplies | components/Camera.tsx:176-179 | applying a composed transform is applying the inner transform, then the outer one |
| Canvas2D.Canvas.SetWidth | components/Editor.tsx:93 | setting the width resizes the canvas, resets the drawing state and empties the drawing |
| Canvas2D.Canvas.SetHeight | components/Editor.tsx:94 | setting the height resizes the canvas, resets the drawing state and empties the drawing |
| Canvas2D.Canvas.SetFilter | components/Editor.tsx:103 | `ctx.filter = f` changes the filter and nothing else |
| Canvas2D.Canvas.SetFillStyle | components/Editor.tsx:56 | `ctx.fillStyle = s` changes the fill style and nothing else |
| Canvas2D.Canvas.SetStrokeStyle | components/Editor.tsx:127 | `ctx.strokeStyle = s` changes the stroke style and nothing else |
| Canvas2D.Canvas.SetLineWidth | components/Editor.tsx:124 | `ctx.lineWidth = lw` changes the line width and nothing else |
| Canvas2D.Canvas.SetFont | components/Editor.tsx:55 | `ctx.font = …` changes the font and nothing else |
| Canvas2D.Canvas.SetTextAlign | components/Editor.tsx:57 | `ctx.textAlign = …` changes the alignment and nothing else |
| Canvas2D.Canvas.SetTextBaseline | components/Editor.tsx:58 | `ctx.textBaseline = …` changes the baseline and nothing else |
| Canvas2D.Canvas.SetShadowColor | components/Editor.tsx:60 | `ctx.shadowColor = …` changes the shadow colour and nothing else |
| Canvas2D.Canvas.SetShadowBlur | components/Editor.tsx:61 | `ctx.shadowBlur = …` changes the blur and nothing else |
| Canvas2D.Canvas.SetShadowOffset | components/Editor.tsx:62-63 | the two shadow offsets change and nothing else |
| Canvas2D.Canvas.Translate | components/Camera.tsx:177 | `translate` post-multiplies the transform by a translation and changes nothing else |
| Canvas2D.Canvas.Scale | components/Camera.tsx:178 | `scale` post-multiplies the transform by a scaling and changes nothing else |
| Canvas2D.Canvas.SetTransform | components/Camera.tsx:191 | `setTransform` replaces the transform and changes nothing else |
| Canvas2D.Canvas.Save | components/Editor.tsx:49 | `save` pushes the current drawing state |
| Canvas2D.Canvas.Restore | components/Editor.tsx:75 | `restore` pops the last saved state back in, and does nothing on an empty stack |
| Canvas2D.Canvas.Issue | components/Editor.tsx:106 | a drawing command is appended together with the state in effect |
| Pinning.CustomNeverPinned | components/Editor.tsx:188-191 | pinning the custom frame changes neither the pin nor the store |
| Pinning.TogglePin | components/Editor.tsx:187-202 | the pin button's transition; CustomNeverPinned, ToggleOutcome, ToggleKeepsSync, ToggleTwice and ToggleNotIdempotent characterise it |
| Pinning.MountRestore | components/Editor.tsx:33-42 | the mount-time restore; RestoreOutcome, UnknownNamePinnedNotSelected and PinSurvivesRemount characterise it |
| Pinning.ToggleOutcome | components/Editor.tsx:193-201 | a toggle keeps the selection and keeps pin and store in agreement; it either pins the selected frame or clears the pin, and it clears it exactly when the selected frame was the pinned one |
| Pinning.ToggleKeepsSync | components/Editor.tsx:193-201 | the pinned name and the stored value stay equal under every toggle |
| Pinning.ToggleTwice | components/Editor.tsx:187-202 | two toggles restore the starting state exactly when nothing was pinned or the selected frame was |
| Pinning.ToggleNotIdempotent | components/Editor.tsx:187-202 | the second press always changes the pin that the first press set |
| Pinning.RestoreOutcome | components/Editor.tsx:33-42 | an empty or missing saved value changes nothing; otherwise it becomes the pin, and it becomes the selection exactly when it names a listed frame; the store is only read |
| Pinning.UnknownNamePinnedNotSelected | components/Editor.tsx:35-40 | a saved name that names no frame is shown as pinned while the selection stays `none` |
| Pinning.PinSurvivesRemount | components/Editor.tsx:33-42 | after a pin, an editor mounted on the resulting store selects that frame and shows it pinned; after an unpin it starts on no frame with nothing pinned |
| EditorComponent.Storage.Get | components/Editor.tsx:34 | `getItem` yields the stored value exactly when the key is present |
| EditorComponent.Storage.GetItem | components/Editor.tsx:34 | `getItem` reads without changing the store and yields what Get yields: the stored value exactly when the key is present |
| EditorComponent.Storage.SetItem | components/Editor.tsx:199 | `setItem` stores the value under the key and changes nothing else |
| EditorComponent.Storage.RemoveItem | components/Editor.tsx:195 | `removeItem` deletes the key and changes nothing else |
| EditorComponent.Editor.constructor | components/Editor.tsx:22-28 | a new editor has filter, frame and sticker `none`, no custom source, nothing pinned, nothing pending |
| EditorComponent.Editor.OnMount | components/Editor.tsx:33-42 | the mount effect applies the restore to the editor's pin and selection, from the value read under the key |
| EditorComponent.Editor.DrawSticker | components/Editor.tsx:45-78 | appends exactly the sticker commands of the specification, and leaves the drawing state and the save stack as they were |
| EditorComponent.Editor.FillSticker | components/Editor.tsx:49-75 | between `save` and `restore`, fills the sticker's text under the sticker state, then restores the state it started from |
| EditorComponent.Editor.DrawFrame | components/Editor.tsx:123-153 | appends exactly the commands of the selected frame and leaves the state the frame sets |
| EditorComponent.Editor.DrawCanvas | components/Editor.tsx:81-91 | `drawCanvas` starts loading the photo, and its `onload` keeps the selection of the render that ran it |
| EditorComponent.Editor.CompleteBaseLoad | components/Editor.tsx:91-157 | any pending photo load may complete: the canvas takes the image size, its commands are exactly the composition of the selection that load captured, not the current one, its final state is the specified one, and the custom-frame continuation is queued exactly when the path is asynchronous |
| EditorComponent.Editor.FailBaseLoad | components/Editor.tsx:87-91 | a photo that never loads only leaves the queue |
| EditorComponent.Editor.PaintBase | components/Editor.tsx:92-156 | the `onload` body under a given selection: size, commands, final state and queued continuation as the composition functions give them |
| EditorComponent.Editor.CompleteFrameLoad | components/Editor.tsx:115-120 | a loaded custom frame appends the continuation's commands under the current state and leaves the queue without it |
| EditorComponent.Editor.FailFrameLoad | components/Editor.tsx:112-115 | a frame image that never loads only leaves the queue |
| EditorComponent.Editor.HandleFrameClick | components/Editor.tsx:179-185 | clicking `custom` opens the file picker and keeps the selection; any other frame is selected |
| EditorComponent.Editor.HandleCustomFrameSelect | components/Editor.tsx:165-177 | a non-empty file result becomes the custom source and selects `custom`; no result changes nothing |
| EditorComponent.Editor.SelectFilter | components/Editor.tsx:330 | the clicked filter is selected |
| EditorComponent.Editor.SelectSticker | components/Editor.tsx:371 | the clicked sticker is selected |
| EditorComponent.Editor.TogglePinFrame | components/Editor.tsx:187-202 | the pin, selection and store follow the toggle machine; the alert is shown exactly for `custom`; no other storage key changes |
| CameraComponent.TogglesFlip | components/Camera.tsx:118-128 | each toggle changes its value and applying it twice gives the value back |
| CameraComponent.TargetSizeRatio | components/Camera.tsx:147-156 | the target is 1080×1920 for `9:16` and 1920×1080 for `16:9`, and switching the ratio swaps the sides |
| CameraComponent.TargetSize | components/Camera.tsx:147-153 | the output resolution for a ratio; TargetSizeRatio states its values and proportions |
| CameraComponent.CoverFit | components/Camera.tsx:158-173 | the video's drawn rectangle; CoverFitCovers and CoverFitMinimal state that it is the centred, tightest proportional cover |
| CameraComponent.CoverFitCovers | components/Camera.tsx:158-173 | the drawn rectangle keeps the video's proportions, covers the whole target, is centred on it, and matches it along one side |
| CameraComponent.CoverFitMinimal | components/Camera.tsx:158-173 | no smaller scaling of the video covers the target: the fit is the tightest cover |
| CameraComponent.MirrorReflects | components/Camera.tsx:176-179 | the user-camera transform maps x to tw − x and swaps the left and right edges of the drawn rectangle |
| CameraComponent.Mirror | components/Camera.tsx:176-179 | the transform after `translate(tw, 0)` and `scale(-1, 1)`; MirrorReflects states that it reflects about x = tw/2 |
| CameraComponent.CaptureState | components/Camera.tsx:176-186 | the drawing state the video is drawn under; CaptureStateChoices states its filter and transform |
| CameraComponent.CaptureStateChoices | components/Camera.tsx:176-186 | the capture filter is the beauty string exactly in beauty mode and `none` otherwise; the transform is the identity exactly for the environment camera |
| CameraComponent.RetryRule | components/Camera.tsx:37-64 | the basic retry is made exactly after an `OverconstrainedError` or `ConstraintNotSatisfiedError`, for the same camera without the ideal size, and its answer is final; any other first answer is final, and without `getUserMedia` nothing is requested |
| CameraComponent.Requests | components/Camera.tsx:37-64 | the `getUserMedia` requests made; RetryRule states when a second one is made and what it asks for |
| CameraComponent.StartOutcome | components/Camera.tsx:37-64 | the stream or the error the attempts end in; RetryRule states which answer decides |
| CameraComponent.ErrorMessageClassifies | components/Camera.tsx:78-84 | permission errors get the permission message, `NotFoundError` gets the no-camera message, and every other error gets the generic prefix followed by its own message or `Desconhecido` |
| CameraComponent.ErrorMessage | components/Camera.tsx:78-84 | the message shown for an error; ErrorMessageClassifies states which message each error name gets |
| CameraComponent.UnsupportedMessage | components/Camera.tsx:37-39 | a browser without `getUserMedia` gets the generic prefix followed by the unsupported-browser message |
| CameraComponent.Camera.constructor | components/Camera.tsx:14-19 | the camera starts on the front camera at `9:16`, with beauty and focus off, no error, and loading |
| CameraComponent.Camera.CanCapture | components/Camera.tsx:306 | the capture button is enabled exactly with no error and not loading; StartCamera states that this holds exactly when the camera streams |
| CameraComponent.Camera.ToggleCamera | components/Camera.tsx:118-120 | switches between the user and environment cameras |
| CameraComponent.Camera.ToggleAspectRatio | components/Camera.tsx:122-124 | switches between `9:16` and `16:9` |
| CameraComponent.Camera.ToggleBeautyMode | components/Camera.tsx:126-128 | flips beauty mode |
| CameraComponent.Camera.ToggleFocusMode | components/Camera.tsx:130-134 | flips the continuous-focus flag |
| CameraComponent.Camera.StartCamera | components/Camera.tsx:31-88 | makes the requests the retry rule allows; it ends not loading, streaming exactly when the outcome is a stream, with the error message of the outcome otherwise; capture is enabled exactly when streaming |
| CameraComponent.Camera.CapturePhoto | components/Camera.tsx:136-196 | the canvas takes the target size, receives exactly one video draw into the cover-fit rectangle under the capture state (mirror and beauty filter), and ends with the transform and filter reset |
| AppComponent.ScreenRule | App.tsx:31-49 | at most one screen is rendered; camera and gallery exactly in their views; the editor exactly in the editor view with a non-empty image, showing that image at the captured ratio; nothing in the editor view without one |
| AppComponent.Screens | App.tsx:31-49 | the screens the markup renders for a view and an image; ScreenRule states that at most one is rendered and which |
| AppComponent.App.constructor | App.tsx:8-10 | the app starts on the camera with no image at `9:16` |
| AppComponent.App.HandleCapture | App.tsx:12-16 | keeps the photo and its ratio and opens the editor on it |
| AppComponent.App.HandleSaveComplete | App.tsx:18-21 | shows the gallery and drops the photo, and the ratio is kept |
| AppComponent.App.HandleCloseEditor | App.tsx:23-26 | returns to the camera and drops the photo, and the ratio is kept |
| AppComponent.App.Navigate | App.tsx:34 | camera and gallery navigation change only the view |

## Left out

- Pixel rendering: the filters are treated as opaque CSS filter strings and images as opaque sources. Colour math, rasterisation and gradient shading belong to the browser.
- Floating point: all geometry is over `real`. IEEE rounding, and the `NaN` or infinity that a zero-sized video would produce, are not modelled.
- CameraComponent.CoverFit: requires a positive video width and height. The source divides by them and would produce `NaN` for a video that has no dimensions yet.
- StickerText.FontBaseSize: `parseInt` is modelled on the digit run as an unbounded natural number. Precision loss on runs beyond 2^53 is not modelled.
- StickerText.StickerState: the CSS font string `bold <size>px <family>` is kept as a structured `Font(weight, size, family)`. The browser's parse of that string back into a font is not modelled.
- JPEG encoding (`toDataURL`): the encoded image is a parameter (`encoded`) of `CapturePhoto`.
- The `FileReader` that reads an uploaded frame: its result is a parameter of `HandleCustomFrameSelect`.
- Camera device I/O (`getUserMedia`, stopping tracks, `applyConstraints` for focus): the browser's answers are parameters of `StartCamera`. Only the retry and message decisions are modelled.
- React effect scheduling: which renders run the effect that calls `drawCanvas` is left to the caller. The photo's `onload` or failure is `CompleteBaseLoad` or `FailBaseLoad`, with the decoded image size as parameters. The frame image's `onload` or failure is `CompleteFrameLoad` or `FailFrameLoad`.
- EditorComponent.Editor.DrawCanvas: the effect's dependency list (the filter, frame, sticker and custom-frame source) is not modelled. Any call may start a load, not only one after one of those changed.
- The early returns when the canvas or its 2D context is missing: the model always has a canvas.
- The editor's save, share and download (`handleSave`, its 100 ms delay, `savePhoto`) and the gallery: persistence and sharing are I/O. Gallery.tsx is not part of this model.
- EditorComponent.Editor.TogglePinFrame: the pin button is rendered only on the frames tab and only when the selected frame is neither `none` nor `custom` (components/Editor.tsx:309). The model allows the toggle in any state; `Pinning.CustomNeverPinned` states what it does for `custom`.
- UI-only state: the editor's active tab and saving flag, and all markup and styling.
- `console` logging.
