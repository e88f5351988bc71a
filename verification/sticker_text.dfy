/**
  How the editor turns a text sticker into one `fillText` call
  (components/Editor.tsx, drawSticker): the font size and family parsed out
  of the sticker's CSS font string, the scale relative to a 1080-pixel short
  side, the anchor point and the shadow, and the polaroid override.
 */
module StickerText {
  import opened Wrappers
  import opened StringOps
  import opened Types
  import opened Constants
  import opened Canvas2D

  /** `parseInt(font.match(/\d+/)?.[0] || '60')`: the first run of digits in
      the font string, read in base ten, or 60 when there is none. */
  function FontBaseSize(font: string): nat {
    match FirstDigitRun(font)
    case None => 60
    case Some(d) => DigitsValue(d)
  }

  /** `font.split(' ').slice(2).join(' ').replace(/"/g, '') || 'sans-serif'`:
      the words from the third on, with the quotes removed, or `sans-serif`
      when that leaves nothing. */
  function FontFamily(font: string): (family: string)
    ensures family != "" && '"' !in family
  {
    var words := Split(font, ' ');
    var tail := if |words| <= 2 then [] else words[2..];
    var joined := RemoveChar(Join(tail, ' '), '"');
    if joined == "" then "sans-serif" else joined
  }

  /** The shape of every non-empty font of the sticker table:
      `<weight> <size>px "<family>"`. */
  function FontShape(weight: string, size: string, family: string): string {
    weight + " " + PixelSizeAndFamily(size, family)
  }

  function PixelSizeAndFamily(size: string, family: string): string {
    size + "px \"" + family + "\""
  }

  /** The size read is the first digit run wherever it starts, and 60 only
      when the font string holds no digit at all. */
  lemma FontBaseSizeReadsFirstRun(font: string, i: nat)
    requires i < |font| && IsDigit(font[i]) && forall j :: 0 <= j < i ==> !IsDigit(font[j])
    ensures FontBaseSize(font) == DigitsValue(LeadingDigits(font[i..]))
  {
  }

  /** With no digit anywhere, the size falls back to 60; with fewer than three
      words, the family falls back to `sans-serif`. The empty font string of
      the `none` sticker hits both. */
  lemma FontFallbacks(font: string)
    ensures (forall i :: 0 <= i < |font| ==> !IsDigit(font[i])) <==> FontBaseSize(font) == 60 && FirstDigitRun(font).None?
    ensures |Split(font, ' ')| <= 2 ==> FontFamily(font) == "sans-serif"
    ensures FontBaseSize("") == 60 && FontFamily("") == "sans-serif"
  {
  }

  /** On a font of that shape, the family parse yields the family unquoted,
      spaces inside it included. */
  lemma FamilyOfShapedFont(weight: string, size: string, family: string)
    requires ' ' !in weight && ' ' !in size
    requires family != "" && '"' !in family
    ensures FontFamily(FontShape(weight, size, family)) == family
  {
    var sizePx := size + "px";
    var quoted := "\"" + family + "\"";
    assert ' ' !in sizePx;
    assert FontShape(weight, size, family) == weight + [' '] + (sizePx + [' '] + quoted);
    SplitAppend(weight, sizePx + [' '] + quoted, ' ');
    SplitAppend(sizePx, quoted, ' ');
    SplitSepFree(weight, ' ');
    SplitSepFree(sizePx, ' ');
    var words := Split(FontShape(weight, size, family), ' ');
    assert words == [weight] + ([sizePx] + Split(quoted, ' '));
    assert words[2..] == Split(quoted, ' ');
    JoinSplit(quoted, ' ');
    RemoveCharAppend("\"" + family, "\"", '"');
    RemoveCharAppend("\"", family, '"');
    RemoveCharAbsent(family, '"');
    assert RemoveChar(quoted, '"') == family;
  }

  /** On a font that starts with a run of digits followed by a non-digit, the
      size read is that run. */
  lemma BaseSizeOfLeadingRun(d: string, rest: string)
    requires |d| > 0 && AllDigits(d)
    requires |rest| == 0 || !IsDigit(rest[0])
    ensures FontBaseSize(d + rest) == DigitsValue(d)
  {
    FirstDigitRunAtFront(d, rest);
  }

  /** On a font of the table's shape, the size read is the weight, not the
      pixel size after it. */
  lemma BaseSizeOfShapedFont(weight: string, size: string, family: string)
    requires |weight| > 0 && AllDigits(weight)
    ensures FontBaseSize(FontShape(weight, size, family)) == DigitsValue(weight)
  {
    var font := FontShape(weight, size, family);
    var rest := " " + PixelSizeAndFamily(size, family);
    assert font == weight + rest;
    BaseSizeOfLeadingRun(weight, rest);
    assert FontBaseSize(weight + rest) == DigitsValue(weight);
  }

  /** Both parses on a font of the table's shape. */
  lemma ShapedFontParse(weight: string, size: string, family: string)
    requires |weight| > 0 && AllDigits(weight) && ' ' !in size
    requires family != "" && '"' !in family
    ensures FontBaseSize(FontShape(weight, size, family)) == DigitsValue(weight)
    ensures FontFamily(FontShape(weight, size, family)) == family
  {
    BaseSizeOfShapedFont(weight, size, family);
    assert ' ' !in weight by {
      forall i | 0 <= i < |weight| ensures weight[i] != ' ' {
        assert IsDigit(weight[i]);
      }
    }
    FamilyOfShapedFont(weight, size, family);
  }

  /** The font parse on the shipped stickers: the size read is the weight
      (700, or 500 for "Gratidão"), not the pixel size, and the family is the
      quoted family without its quotes. */
  lemma ShippedFontsParse()
    ensures FontBaseSize(STICKERS[1].font) == 700 && FontFamily(STICKERS[1].font) == "Dancing Script"
    ensures FontBaseSize(STICKERS[2].font) == 700 && FontFamily(STICKERS[2].font) == "Playfair Display"
    ensures FontBaseSize(STICKERS[3].font) == 700 && FontFamily(STICKERS[3].font) == "Dancing Script"
    ensures FontBaseSize(STICKERS[4].font) == 500 && FontFamily(STICKERS[4].font) == "Inter"
    ensures FontBaseSize(STICKERS[5].font) == 700 && FontFamily(STICKERS[5].font) == "Dancing Script"
  {
    BomDiaFont();
    BoaTardeFont();
    BoaNoiteFont();
    GratidaoFont();
    FelicidadeFont();
    DancingScriptParse();
    PlayfairParse();
    InterParse();
  }

  /** `Math.min(width, height) / 1080`. */
  function ScaleFactor(w: nat, h: nat): (s: real)
    ensures s >= 0.0
    ensures w >= 1080 && h >= 1080 ==> s >= 1.0
  {
    (if w <= h then w else h) as real / 1080.0
  }

  /** The font size drawSticker sets: the size read from the font string,
      scaled by the short side over 1080. */
  function FontSize(base: nat, w: nat, h: nat): real {
    base as real * ScaleFactor(w, h)
  }

  /** The literal values drawSticker assigns. */
  const Bold: string := "bold"
  const PolaroidInk: string := "#333"
  const Centre: string := "center"
  const Middle: string := "middle"
  const Transparent: string := "transparent"
  const TextShadow: string := "rgba(0,0,0,0.5)"

  /** The drawing state under which the sticker's text is filled, starting
      from `a`: everything drawSticker sets, and the rest of `a` untouched. */
  function StickerState(c: StickerConfig, frame: FrameType, w: nat, h: nat, a: Attrs): Attrs {
    var s := ScaleFactor(w, h);
    var polaroid := frame == Polaroid;
    a.(font := Font(Bold, FontSize(FontBaseSize(c.font), w, h), FontFamily(c.font)),
       fillStyle := Color(if polaroid then PolaroidInk else c.color),
       textAlign := Centre,
       textBaseline := Middle,
       shadowColor := if polaroid then Transparent else TextShadow,
       shadowBlur := 10.0 * s,
       shadowOffsetX := 2.0 * s,
       shadowOffsetY := 2.0 * s)
  }

  /** The vertical anchor: 85% of the height, or 92% on a polaroid frame,
      where it falls inside the wide bottom margin. */
  function AnchorY(frame: FrameType, h: nat): real {
    if frame == Polaroid then 0.92 * h as real else 0.85 * h as real
  }

  /** The one `fillText` drawSticker issues for the sticker `c`. */
  function StickerPaint(c: StickerConfig, frame: FrameType, w: nat, h: nat, a: Attrs): Paint {
    Paint(FillText(c.text, w as real / 2.0, AnchorY(frame, h)), StickerState(c, frame, w, h, a))
  }

  /** What drawSticker paints: nothing for `none` (or a name missing from the
      table), otherwise the sticker's one `fillText`. */
  function StickerPaints(sticker: StickerType, frame: FrameType, w: nat, h: nat, a: Attrs): seq<Paint> {
    if sticker == NoSticker then []
    else match FindSticker(sticker)
      case None => []
      case Some(c) => [StickerPaint(c, frame, w, h, a)]
  }

  /** A chosen sticker is always painted, exactly once, with the table entry
      carrying its name; `none` paints nothing. */
  lemma StickerPainted(sticker: StickerType, frame: FrameType, w: nat, h: nat, a: Attrs)
    ensures sticker == NoSticker <==> StickerPaints(sticker, frame, w, h, a) == []
    ensures sticker != NoSticker ==>
      var c := FindSticker(sticker).value;
      && c.name == sticker && c in STICKERS
      && c == STICKERS[StickerIndex(sticker)]
      && StickerPaints(sticker, frame, w, h, a) == [StickerPaint(c, frame, w, h, a)]
  {
    if sticker != NoSticker {
      FindStickerAt(sticker);
    }
  }

  /** The sticker is text, filled under the filter already in force. */
  lemma StickerKeepsFilter(c: StickerConfig, frame: FrameType, w: nat, h: nat, a: Attrs)
    ensures StickerPaint(c, frame, w, h, a).op.FillText?
    ensures StickerPaint(c, frame, w, h, a).state.filter == a.filter
  {
  }

  /** Whatever drawSticker paints is text, filled under the filter in force. */
  lemma StickerStageKeepsFilter(sticker: StickerType, frame: FrameType, w: nat, h: nat, a: Attrs, j: nat)
    requires j < |StickerPaints(sticker, frame, w, h, a)|
    ensures StickerPaints(sticker, frame, w, h, a)[j].op.FillText?
    ensures StickerPaints(sticker, frame, w, h, a)[j].state.filter == a.filter
  {
    var found := FindSticker(sticker);
    if sticker != NoSticker && found.Some? {
      StickerKeepsFilter(found.value, frame, w, h, a);
    }
  }

  /** Where and how a sticker's text is filled: centred horizontally at 85% of
      the height (92% on a polaroid); the fill is its colour and the shadow
      half-transparent black, except on a polaroid where the fill is '#333'
      and the shadow transparent. Blur, offsets and font size scale with the
      short side; the filter and the transform in force are kept. */
  lemma StickerPlacement(c: StickerConfig, frame: FrameType, w: nat, h: nat, a: Attrs)
    ensures
      var p := StickerPaint(c, frame, w, h, a);
      var s := ScaleFactor(w, h);
      && p.op == FillText(c.text, w as real / 2.0, if frame == Polaroid then 0.92 * h as real else 0.85 * h as real)
      && 0.0 <= p.op.y <= h as real
      && p.state.fillStyle == Color(if frame == Polaroid then "#333" else c.color)
      && p.state.shadowColor == (if frame == Polaroid then "transparent" else "rgba(0,0,0,0.5)")
      && p.state.shadowBlur == 10.0 * s
      && p.state.shadowOffsetX == 2.0 * s && p.state.shadowOffsetY == 2.0 * s
      && p.state.font == Font("bold", FontSize(FontBaseSize(c.font), w, h), FontFamily(c.font))
      && p.state.textAlign == "center" && p.state.textBaseline == "middle"
      && p.state.filter == a.filter && p.state.transform == a.transform
      && p.state.lineWidth == a.lineWidth && p.state.strokeStyle == a.strokeStyle
  {
  }

  /** The family each shipped sticker's font names. */
  function ShippedFamily(s: StickerType): string {
    match s
    case BoaTarde => "Playfair Display"
    case Gratidao => "Inter"
    case _ => "Dancing Script"
  }

  /** Every shipped sticker is written in bold, in its font's family, at a
      size read from its weight (700, or 500 for "Gratidão"): the pixel size
      of the table's font never reaches the canvas. */
  lemma ShippedStickerFont(s: StickerType, frame: FrameType, w: nat, h: nat, a: Attrs)
    requires s != NoSticker
    ensures var ps := StickerPaints(s, frame, w, h, a);
      var font := STICKERS[StickerIndex(s)].font;
      && |ps| == 1
      && ps[0].op.text == STICKERS[StickerIndex(s)].text
      && ps[0].state.font == Font("bold", FontSize(FontBaseSize(font), w, h), ShippedFamily(s))
      && FontBaseSize(font) == (if s == Gratidao then 500 else 700)
  {
    var c := STICKERS[StickerIndex(s)];
    StickerPainted(s, frame, w, h, a);
    StickerPlacement(c, frame, w, h, a);
    ShippedFontOf(s);
  }

  lemma ShippedFontOf(s: StickerType)
    requires s != NoSticker
    ensures FontBaseSize(STICKERS[StickerIndex(s)].font) == if s == Gratidao then 500 else 700
    ensures FontFamily(STICKERS[StickerIndex(s)].font) == ShippedFamily(s)
  {
    ShippedFontsParse();
  }

  /** At a short side of 1080 pixels the scale is one, and the font size is
      the size read from the font string. */
  lemma UnitScale(base: nat, w: nat, h: nat)
    requires (if w <= h then w else h) == 1080
    ensures FontSize(base, w, h) == base as real
  {
    assert ScaleFactor(w, h) == 1.0;
  }

  /** "Gratidão" on a 1920x1080 photo without a frame: the text at (960, 918)
      in bold 500px Inter. */
  lemma GratidaoOnLandscape(w: nat, h: nat, a: Attrs)
    requires w == 1920 && h == 1080
    ensures var ps := StickerPaints(Gratidao, NoFrame, w, h, a);
      |ps| == 1 && ps[0].op == FillText("Gratidão", 960.0, 918.0)
      && ps[0].state.font == Font("bold", 500.0, "Inter")
  {
    ShippedStickerFont(Gratidao, NoFrame, w, h, a);
    StickerPainted(Gratidao, NoFrame, w, h, a);
    UnitScale(500, w, h);
  }

  // Spelled-out facts about the shipped sticker fonts, one literal at a
  // time; ShippedFontsParse above combines them.

  lemma BomDiaFont()
    ensures STICKERS[1].font == FontShape("700", "80", "Dancing Script")
  {
    BomDiaFontEntry();
    BomDiaFontShape();
  }

  lemma BomDiaFontEntry()
    ensures STICKERS[1].font == "700 80px \"Dancing Script\""
  {
  }

  lemma BomDiaFontShape()
    ensures "700 80px \"Dancing Script\"" == FontShape("700", "80", "Dancing Script")
  {
  }

  lemma BoaTardeFont()
    ensures STICKERS[2].font == FontShape("700", "80", "Playfair Display")
  {
    BoaTardeFontEntry();
    BoaTardeFontShape();
  }

  lemma BoaTardeFontEntry()
    ensures STICKERS[2].font == "700 80px \"Playfair Display\""
  {
  }

  lemma BoaTardeFontShape()
    ensures "700 80px \"Playfair Display\"" == FontShape("700", "80", "Playfair Display")
  {
  }

  lemma BoaNoiteFont()
    ensures STICKERS[3].font == FontShape("700", "80", "Dancing Script")
  {
    BoaNoiteFontEntry();
    BoaNoiteFontShape();
  }

  lemma BoaNoiteFontEntry()
    ensures STICKERS[3].font == "700 80px \"Dancing Script\""
  {
  }

  lemma BoaNoiteFontShape()
    ensures "700 80px \"Dancing Script\"" == FontShape("700", "80", "Dancing Script")
  {
  }

  lemma GratidaoFont()
    ensures STICKERS[4].font == FontShape("500", "60", "Inter")
  {
    GratidaoFontEntry();
    GratidaoFontShape();
  }

  lemma GratidaoFontEntry()
    ensures STICKERS[4].font == "500 60px \"Inter\""
  {
  }

  lemma GratidaoFontShape()
    ensures "500 60px \"Inter\"" == FontShape("500", "60", "Inter")
  {
  }

  lemma FelicidadeFont()
    ensures STICKERS[5].font == FontShape("700", "60", "Dancing Script")
  {
    FelicidadeFontEntry();
    FelicidadeFontShape();
  }

  lemma FelicidadeFontEntry()
    ensures STICKERS[5].font == "700 60px \"Dancing Script\""
  {
  }

  lemma FelicidadeFontShape()
    ensures "700 60px \"Dancing Script\"" == FontShape("700", "60", "Dancing Script")
  {
  }

  lemma DancingScriptParse()
    ensures FontBaseSize(FontShape("700", "80", "Dancing Script")) == 700
    ensures FontFamily(FontShape("700", "80", "Dancing Script")) == "Dancing Script"
    ensures FontBaseSize(FontShape("700", "60", "Dancing Script")) == 700
    ensures FontFamily(FontShape("700", "60", "Dancing Script")) == "Dancing Script"
  {
    WeightValues();
    ShapedFontParse("700", "80", "Dancing Script");
    ShapedFontParse("700", "60", "Dancing Script");
  }

  lemma PlayfairParse()
    ensures FontBaseSize(FontShape("700", "80", "Playfair Display")) == 700
    ensures FontFamily(FontShape("700", "80", "Playfair Display")) == "Playfair Display"
  {
    WeightValues();
    ShapedFontParse("700", "80", "Playfair Display");
  }

  lemma InterParse()
    ensures FontBaseSize(FontShape("500", "60", "Inter")) == 500
    ensures FontFamily(FontShape("500", "60", "Inter")) == "Inter"
  {
    WeightValues();
    ShapedFontParse("500", "60", "Inter");
  }

  lemma WeightValues()
    ensures DigitsValue("500") == 500 && DigitsValue("700") == 700
  {
    assert "500"[..2] == "50" && "50"[..1] == "5" && "5"[..0] == "";
    assert "700"[..2] == "70" && "70"[..1] == "7" && "7"[..0] == "";
  }
}
