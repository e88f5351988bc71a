/**
  The closed string unions of the application (types.ts), as datatypes, with
  the string each value stands for. The code compares these values as
  strings: the preference store holds a frame name as free text.
 */
module Types {
  import opened Wrappers

  /** The three screens of the application. */
  datatype AppView = CameraView | EditorView | GalleryView

  /** The capture and display aspect ratio, `'9:16'` or `'16:9'`. */
  datatype AspectRatio = Portrait | Landscape

  function AspectRatioName(ar: AspectRatio): string {
    match ar
    case Portrait => "9:16"
    case Landscape => "16:9"
  }

  /** The filter names. `'contrast'` is the one labelled "Vívido". */
  datatype FilterType = NoFilter | Warm | Cool | Sepia | Grayscale | Vintage | Contrast

  function FilterTypeName(f: FilterType): string {
    match f
    case NoFilter => "none"
    case Warm => "warm"
    case Cool => "cool"
    case Sepia => "sepia"
    case Grayscale => "grayscale"
    case Vintage => "vintage"
    case Contrast => "contrast"
  }

  /** The frame names. */
  datatype FrameType = NoFrame | Custom | WhiteBorder | Polaroid | Cinema | Vignette

  function FrameTypeName(f: FrameType): string {
    match f
    case NoFrame => "none"
    case Custom => "custom"
    case WhiteBorder => "white-border"
    case Polaroid => "polaroid"
    case Cinema => "cinema"
    case Vignette => "vignette"
  }

  /** The cast `s as FrameType`, defined only on the six frame names: the
      frame whose name is `s`, or None when `s` names no frame. */
  function ParseFrameType(s: string): (r: Option<FrameType>)
    ensures r.Some? ==> FrameTypeName(r.value) == s
    ensures r.None? <==> forall f: FrameType :: FrameTypeName(f) != s
  {
    if s == "none" then Some(NoFrame)
    else if s == "custom" then Some(Custom)
    else if s == "white-border" then Some(WhiteBorder)
    else if s == "polaroid" then Some(Polaroid)
    else if s == "cinema" then Some(Cinema)
    else if s == "vignette" then Some(Vignette)
    else None
  }

  /** The text-sticker names. */
  datatype StickerType = NoSticker | BomDia | BoaTarde | BoaNoite | Gratidao | Felicidade

  function StickerTypeName(s: StickerType): string {
    match s
    case NoSticker => "none"
    case BomDia => "bom-dia"
    case BoaTarde => "boa-tarde"
    case BoaNoite => "boa-noite"
    case Gratidao => "gratidao"
    case Felicidade => "felicidade"
  }

  /** Distinct values have distinct names, so comparing names is comparing values. */
  lemma NamesInjective()
    ensures forall f, g: FilterType :: FilterTypeName(f) == FilterTypeName(g) ==> f == g
    ensures forall f, g: FrameType :: FrameTypeName(f) == FrameTypeName(g) ==> f == g
    ensures forall s, t: StickerType :: StickerTypeName(s) == StickerTypeName(t) ==> s == t
    ensures forall a, b: AspectRatio :: AspectRatioName(a) == AspectRatioName(b) ==> a == b
  {
  }
}
