/**
  The editor's option tables (constants.ts): filters with their canvas filter
  strings, frames, and text stickers with their text, colour and CSS font.
  The filter strings are opaque to the application: the browser interprets
  them when the canvas draws.
 */
module Constants {
  import opened Wrappers
  import opened Types
  import opened StringOps

  datatype FilterConfig = FilterConfig(name: string, caption: string, filter: string)
  datatype FrameConfig = FrameConfig(name: FrameType, caption: string)
  datatype StickerConfig = StickerConfig(name: StickerType, caption: string, text: string, color: string, font: string)

  const NONE_FILTER := FilterConfig("none", "Normal", "none")
  const VIVID_FILTER := FilterConfig("contrast", "Vívido", "contrast(1.2) saturate(1.2)")
  const WARM_FILTER := FilterConfig("warm", "Quente", "sepia(0.3) hue-rotate(-10deg) saturate(1.2)")
  const COOL_FILTER := FilterConfig("cool", "Frio", "hue-rotate(10deg) brightness(1.1)")
  const SEPIA_FILTER := FilterConfig("sepia", "Sépia", "sepia(1)")
  const GRAYSCALE_FILTER := FilterConfig("grayscale", "P&B", "grayscale(1)")
  const VINTAGE_FILTER := FilterConfig("vintage", "Retrô", "sepia(0.5) contrast(1.1) brightness(0.9)")

  const FILTERS: seq<FilterConfig> :=
    [NONE_FILTER, VIVID_FILTER, WARM_FILTER, COOL_FILTER, SEPIA_FILTER, GRAYSCALE_FILTER, VINTAGE_FILTER]

  const FRAMES: seq<FrameConfig> := [
    FrameConfig(NoFrame, "Sem Moldura"),
    FrameConfig(Custom, "Sua Moldura"),
    FrameConfig(WhiteBorder, "Borda Branca"),
    FrameConfig(Polaroid, "Polaroid"),
    FrameConfig(Cinema, "Cinema"),
    FrameConfig(Vignette, "Vinheta")
  ]

  const NO_STICKER := StickerConfig(NoSticker, "Sem Texto", "", "", "")
  const BOM_DIA := StickerConfig(BomDia, "Bom Dia", "Bom dia!", "#FFFFFF", "700 80px \"Dancing Script\"")
  const BOA_TARDE := StickerConfig(BoaTarde, "Boa Tarde", "Boa tarde", "#FFFFFF", "700 80px \"Playfair Display\"")
  const BOA_NOITE := StickerConfig(BoaNoite, "Boa Noite", "Boa noite", "#fbbf24", "700 80px \"Dancing Script\"")
  const GRATIDAO := StickerConfig(Gratidao, "Gratidão", "Gratidão", "#FFFFFF", "500 60px \"Inter\"")
  const FELICIDADE := StickerConfig(Felicidade, "Felicidade", "Momentos Felizes", "#f472b6", "700 60px \"Dancing Script\"")

  const STICKERS: seq<StickerConfig> := [NO_STICKER, BOM_DIA, BOA_TARDE, BOA_NOITE, GRATIDAO, FELICIDADE]

  /** `xs.find(p)`: the first element satisfying `p`, or None when there is none. */
  function Find<T>(xs: seq<T>, p: T -> bool): Option<T> {
    if |xs| == 0 then None
    else if p(xs[0]) then Some(xs[0])
    else Find(xs[1..], p)
  }

  /** `find` returns None exactly when no element satisfies `p`, and otherwise
      the element at the first index that does. */
  lemma {:induction false} FindFirst<T>(xs: seq<T>, p: T -> bool)
    ensures Find(xs, p).None? <==> forall i :: 0 <= i < |xs| ==> !p(xs[i])
    ensures Find(xs, p).Some? ==>
      exists i :: 0 <= i < |xs| && xs[i] == Find(xs, p).value && p(xs[i])
        && forall j :: 0 <= j < i ==> !p(xs[j])
    decreases |xs|
  {
    if |xs| > 0 && !p(xs[0]) {
      var r := Find(xs[1..], p);
      FindFirst(xs[1..], p);
      if r.Some? {
        var i :| 0 <= i < |xs[1..]| && xs[1..][i] == r.value && p(xs[1..][i])
          && forall j :: 0 <= j < i ==> !p(xs[1..][j]);
        assert xs[i + 1] == r.value;
        assert forall j :: 0 <= j < i + 1 ==> !p(xs[j]) by {
          forall j | 0 <= j < i + 1 ensures !p(xs[j]) {
            if j > 0 { assert xs[j] == xs[1..][j - 1]; }
          }
        }
      } else {
        assert forall i :: 0 <= i < |xs| ==> !p(xs[i]) by {
          forall i | 0 <= i < |xs| ensures !p(xs[i]) {
            if i > 0 { assert xs[i] == xs[1..][i - 1]; }
          }
        }
      }
    }
  }

  /** In a table whose names are pairwise distinct, `find` by name returns the
      one entry carrying that name. */
  lemma FindUnique<T>(xs: seq<T>, p: T -> bool, k: nat)
    requires k < |xs| && p(xs[k])
    requires forall i, j :: 0 <= i < j < |xs| && p(xs[i]) ==> !p(xs[j])
    ensures Find(xs, p) == Some(xs[k])
  {
    FindFirst(xs, p);
    var i :| 0 <= i < |xs| && xs[i] == Find(xs, p).value && p(xs[i])
      && forall j :: 0 <= j < i ==> !p(xs[j]);
    assert i == k;
  }

  /** `FILTERS.find(f => f.name === name)`. */
  function FindFilter(name: string): Option<FilterConfig> {
    Find(FILTERS, (c: FilterConfig) => c.name == name)
  }

  /** `STICKERS.find(s => s.name === name)`. */
  function FindSticker(name: StickerType): Option<StickerConfig> {
    Find(STICKERS, (c: StickerConfig) => c.name == name)
  }

  /** `FRAMES.some(f => f.name === name)`. */
  predicate FrameListed(name: string) {
    exists i :: 0 <= i < |FRAMES| && FrameTypeName(FRAMES[i].name) == name
  }

  /** The filter named `f` in the table; every filter has one. */
  predicate FilterListed(f: FilterType) {
    exists i :: 0 <= i < |FILTERS| && FILTERS[i].name == FilterTypeName(f)
  }

  /** The filter table lists each filter name exactly once, and nothing else. */
  lemma FilterTable()
    ensures forall i, j :: 0 <= i < j < |FILTERS| ==> FILTERS[i].name != FILTERS[j].name
    ensures forall f: FilterType :: FilterListed(f)
    ensures forall i :: 0 <= i < |FILTERS| ==> ParseFilterName(FILTERS[i].name).Some?
  {
    forall f: FilterType ensures FilterListed(f) {
      var i := match f
        case NoFilter => 0 case Contrast => 1 case Warm => 2 case Cool => 3
        case Sepia => 4 case Grayscale => 5 case Vintage => 6;
      assert FILTERS[i].name == FilterTypeName(f);
    }
  }

  /** The filter whose name is `s`, if any. */
  function ParseFilterName(s: string): (r: Option<FilterType>)
    ensures r.Some? ==> FilterTypeName(r.value) == s
    ensures r.None? ==> forall f: FilterType :: FilterTypeName(f) != s
  {
    if s == "none" then Some(NoFilter)
    else if s == "contrast" then Some(Contrast)
    else if s == "warm" then Some(Warm)
    else if s == "cool" then Some(Cool)
    else if s == "sepia" then Some(Sepia)
    else if s == "grayscale" then Some(Grayscale)
    else if s == "vintage" then Some(Vintage)
    else None
  }

  /** The frame table lists each frame exactly once, `custom` among them, and a
      name is listed exactly when it is the name of a frame. */
  lemma FrameTable()
    ensures forall i, j :: 0 <= i < j < |FRAMES| ==> FRAMES[i].name != FRAMES[j].name
    ensures forall f: FrameType :: FrameListed(FrameTypeName(f))
    ensures FrameListed("custom")
    ensures forall s :: FrameListed(s) <==> ParseFrameType(s).Some?
  {
    forall f: FrameType ensures FrameListed(FrameTypeName(f)) {
      var i := match f
        case NoFrame => 0 case Custom => 1 case WhiteBorder => 2
        case Polaroid => 3 case Cinema => 4 case Vignette => 5;
      assert FRAMES[i].name == f;
    }
    forall s ensures FrameListed(s) <==> ParseFrameType(s).Some? {
      if ParseFrameType(s).Some? {
        assert FrameListed(FrameTypeName(ParseFrameType(s).value));
      }
    }
  }

  /** Sticker `s` has an entry in the table. */
  predicate StickerListed(s: StickerType) {
    exists i :: 0 <= i < |STICKERS| && STICKERS[i].name == s
  }

  /** The sticker table lists each sticker exactly once; only `none` has an
      empty text, colour and font. */
  lemma StickerTable()
    ensures forall i, j :: 0 <= i < j < |STICKERS| ==> STICKERS[i].name != STICKERS[j].name
    ensures forall s: StickerType :: StickerListed(s)
    ensures forall i :: 0 <= i < |STICKERS| ==>
      (STICKERS[i].name == NoSticker <==> STICKERS[i].text == "")
      && (STICKERS[i].name == NoSticker <==> STICKERS[i].color == "")
      && (STICKERS[i].name == NoSticker <==> STICKERS[i].font == "")
  {
    forall s: StickerType ensures StickerListed(s) {
      var i := match s
        case NoSticker => 0 case BomDia => 1 case BoaTarde => 2
        case BoaNoite => 3 case Gratidao => 4 case Felicidade => 5;
      assert STICKERS[i].name == s;
    }
  }

  /** Every sticker of the table is found by its own name. */
  lemma FindStickerFinds(s: StickerType)
    ensures FindSticker(s).Some? && FindSticker(s).value.name == s
    ensures FindSticker(s).value in STICKERS
  {
    FindStickerAt(s);
  }

  /** The position of each sticker in the table. */
  function StickerIndex(s: StickerType): (i: nat)
    ensures i < |STICKERS| && STICKERS[i].name == s
  {
    match s
    case NoSticker => 0 case BomDia => 1 case BoaTarde => 2
    case BoaNoite => 3 case Gratidao => 4 case Felicidade => 5
  }

  /** Looking a sticker up by its name finds its own table entry. */
  lemma FindStickerAt(s: StickerType)
    ensures FindSticker(s) == Some(STICKERS[StickerIndex(s)])
  {
    StickerTable();
    FindUnique(STICKERS, (c: StickerConfig) => c.name == s, StickerIndex(s));
  }

  /** Every filter is found by its own name, and `none` maps to the filter
      string `none`. */
  lemma FindFilterFinds(f: FilterType)
    ensures FindFilter(FilterTypeName(f)).Some?
    ensures FindFilter(FilterTypeName(f)).value.name == FilterTypeName(f)
    ensures FindFilter(FilterTypeName(f)).value in FILTERS
    ensures f == NoFilter ==> FindFilter(FilterTypeName(f)).value.filter == "none"
  {
    FindFilterAt(f);
  }

  /** The position of each filter in the table. */
  function FilterIndex(f: FilterType): (i: nat)
    ensures i < |FILTERS| && FILTERS[i].name == FilterTypeName(f)
  {
    match f
    case NoFilter => 0 case Contrast => 1 case Warm => 2 case Cool => 3
    case Sepia => 4 case Grayscale => 5 case Vintage => 6
  }

  /** Looking a filter up by its name finds its own table entry. */
  lemma FindFilterAt(f: FilterType)
    ensures FindFilter(FilterTypeName(f)) == Some(FILTERS[FilterIndex(f)])
  {
    FilterTable();
    FindUnique(FILTERS, (c: FilterConfig) => c.name == FilterTypeName(f), FilterIndex(f));
  }

  /** The colour primitives a filter string is made of, each with its argument
      as written. */
  datatype Primitive =
    | ContrastOf(arg: string)
    | SaturateOf(arg: string)
    | SepiaOf(arg: string)
    | HueRotateOf(arg: string)
    | BrightnessOf(arg: string)
    | GrayscaleOf(arg: string)

  /** The token `name(arg)` of one primitive. */
  function Token(p: Primitive): (t: string)
    ensures ' ' !in p.arg ==> ' ' !in t
  {
    match p
    case ContrastOf(a) => "contrast(" + a + ")"
    case SaturateOf(a) => "saturate(" + a + ")"
    case SepiaOf(a) => "sepia(" + a + ")"
    case HueRotateOf(a) => "hue-rotate(" + a + ")"
    case BrightnessOf(a) => "brightness(" + a + ")"
    case GrayscaleOf(a) => "grayscale(" + a + ")"
  }

  /** The primitive chain of each filter, in the order the browser applies it. */
  function Chain(f: FilterType): seq<Primitive> {
    match f
    case NoFilter => []
    case Contrast => [ContrastOf("1.2"), SaturateOf("1.2")]
    case Warm => [SepiaOf("0.3"), HueRotateOf("-10deg"), SaturateOf("1.2")]
    case Cool => [HueRotateOf("10deg"), BrightnessOf("1.1")]
    case Sepia => [SepiaOf("1")]
    case Grayscale => [GrayscaleOf("1")]
    case Vintage => [SepiaOf("0.5"), ContrastOf("1.1"), BrightnessOf("0.9")]
  }

  function Tokens(ps: seq<Primitive>): (ts: seq<string>)
    ensures |ts| == |ps|
    ensures forall i :: 0 <= i < |ps| ==> ts[i] == Token(ps[i])
  {
    seq(|ps|, i requires 0 <= i < |ps| => Token(ps[i]))
  }

  lemma JoinTwo(a: string, b: string)
    ensures Join([a, b], ' ') == a + " " + b
  {
    assert [a, b][1..] == [b];
  }

  lemma JoinThree(a: string, b: string, c: string)
    ensures Join([a, b, c], ' ') == a + " " + b + " " + c
  {
    assert [a, b, c][1..] == [b, c];
    JoinTwo(b, c);
  }

  /** The filter string of each filter other than `none` is its primitive
      tokens joined by single spaces. */
  lemma FilterStringIsJoinedChain(f: FilterType)
    requires f != NoFilter
    ensures FindFilter(FilterTypeName(f)).Some?
    ensures FindFilter(FilterTypeName(f)).value.filter == Join(Tokens(Chain(f)), ' ')
  {
    FindFilterAt(f);
    match f {
      case Contrast => ContrastTokens(); ContrastJoined();
      case Warm => WarmTokens(); WarmJoined();
      case Cool => CoolTokens(); CoolJoined();
      case Sepia => SepiaTokens(); SepiaJoined();
      case Grayscale => GrayscaleTokens(); GrayscaleJoined();
      case Vintage => VintageTokens(); VintageJoined();
    }
  }

  /** Splitting the filter string of a filter other than `none` at spaces
      gives back exactly the chain's tokens, in order. */
  lemma FilterStringsAreChains(f: FilterType)
    requires f != NoFilter
    ensures FindFilter(FilterTypeName(f)).Some?
    ensures Split(FindFilter(FilterTypeName(f)).value.filter, ' ') == Tokens(Chain(f))
  {
    FilterStringIsJoinedChain(f);
    ChainArgsHaveNoSpace(f);
    SplitJoin(Tokens(Chain(f)), ' ');
  }

  lemma ChainArgsHaveNoSpace(f: FilterType)
    requires f != NoFilter
    ensures |Chain(f)| >= 1
    ensures SepFree(Tokens(Chain(f)), ' ')
  {
    var ps := Chain(f);
    forall i | 0 <= i < |ps| ensures ' ' !in Tokens(ps)[i] {
      var a := ps[i].arg;
      assert a in {"1.2", "0.3", "-10deg", "10deg", "1.1", "1", "0.5", "0.9"};
      assert ' ' !in a;
    }
  }

  // Spelled-out facts about the literal table entries, one filter at a time,
  // each comparison of literal strings kept in a context of its own; the
  // lemmas above combine them.

  /* The chains' tokens and the table's strings, spelled out one filter at a
     time (each comparison of literal strings is kept in a context of its own). */

  lemma ContrastTokens()
    ensures Tokens(Chain(Contrast)) == ["contrast(1.2)", "saturate(1.2)"]
  {
    assert Token(ContrastOf("1.2")) == "contrast(1.2)";
    assert Token(SaturateOf("1.2")) == "saturate(1.2)";
  }

  lemma ContrastJoined()
    ensures Join(["contrast(1.2)", "saturate(1.2)"], ' ') == FILTERS[1].filter
  {
    ContrastSpelled();
    ContrastEntry();
  }

  lemma ContrastSpelled()
    ensures Join(["contrast(1.2)", "saturate(1.2)"], ' ') == "contrast(1.2) saturate(1.2)"
  {
    JoinTwo("contrast(1.2)", "saturate(1.2)");
    ContrastConcat();
  }

  lemma ContrastConcat()
    ensures "contrast(1.2)" + " " + "saturate(1.2)" == "contrast(1.2) saturate(1.2)"
  {
  }

  lemma ContrastEntry()
    ensures FILTERS[1].filter == "contrast(1.2) saturate(1.2)"
  {
  }

  lemma WarmTokens()
    ensures Tokens(Chain(Warm)) == ["sepia(0.3)", "hue-rotate(-10deg)", "saturate(1.2)"]
  {
    assert Token(SepiaOf("0.3")) == "sepia(0.3)";
    assert Token(HueRotateOf("-10deg")) == "hue-rotate(-10deg)";
    assert Token(SaturateOf("1.2")) == "saturate(1.2)";
  }

  lemma WarmJoined()
    ensures Join(["sepia(0.3)", "hue-rotate(-10deg)", "saturate(1.2)"], ' ') == FILTERS[2].filter
  {
    WarmSpelled();
    WarmEntry();
  }

  lemma WarmSpelled()
    ensures Join(["sepia(0.3)", "hue-rotate(-10deg)", "saturate(1.2)"], ' ') == "sepia(0.3) hue-rotate(-10deg) saturate(1.2)"
  {
    JoinThree("sepia(0.3)", "hue-rotate(-10deg)", "saturate(1.2)");
    WarmConcat();
  }

  lemma WarmConcat()
    ensures "sepia(0.3)" + " " + "hue-rotate(-10deg)" + " " + "saturate(1.2)" == "sepia(0.3) hue-rotate(-10deg) saturate(1.2)"
  {
  }

  lemma WarmEntry()
    ensures FILTERS[2].filter == "sepia(0.3) hue-rotate(-10deg) saturate(1.2)"
  {
  }

  lemma CoolTokens()
    ensures Tokens(Chain(Cool)) == ["hue-rotate(10deg)", "brightness(1.1)"]
  {
    assert Token(HueRotateOf("10deg")) == "hue-rotate(10deg)";
    assert Token(BrightnessOf("1.1")) == "brightness(1.1)";
  }

  lemma CoolJoined()
    ensures Join(["hue-rotate(10deg)", "brightness(1.1)"], ' ') == FILTERS[3].filter
  {
    CoolSpelled();
    CoolEntry();
  }

  lemma CoolSpelled()
    ensures Join(["hue-rotate(10deg)", "brightness(1.1)"], ' ') == "hue-rotate(10deg) brightness(1.1)"
  {
    JoinTwo("hue-rotate(10deg)", "brightness(1.1)");
    CoolConcat();
  }

  lemma CoolConcat()
    ensures "hue-rotate(10deg)" + " " + "brightness(1.1)" == "hue-rotate(10deg) brightness(1.1)"
  {
  }

  lemma CoolEntry()
    ensures FILTERS[3].filter == "hue-rotate(10deg) brightness(1.1)"
  {
  }

  lemma SepiaTokens()
    ensures Tokens(Chain(Sepia)) == ["sepia(1)"]
  {
    assert Token(SepiaOf("1")) == "sepia(1)";
  }

  lemma SepiaJoined()
    ensures Join(["sepia(1)"], ' ') == FILTERS[4].filter
  {
    SepiaSpelled();
    SepiaEntry();
  }

  lemma SepiaSpelled()
    ensures Join(["sepia(1)"], ' ') == "sepia(1)"
  {
  }

  lemma SepiaEntry()
    ensures FILTERS[4].filter == "sepia(1)"
  {
  }

  lemma GrayscaleTokens()
    ensures Tokens(Chain(Grayscale)) == ["grayscale(1)"]
  {
    assert Token(GrayscaleOf("1")) == "grayscale(1)";
  }

  lemma GrayscaleJoined()
    ensures Join(["grayscale(1)"], ' ') == FILTERS[5].filter
  {
    GrayscaleSpelled();
    GrayscaleEntry();
  }

  lemma GrayscaleSpelled()
    ensures Join(["grayscale(1)"], ' ') == "grayscale(1)"
  {
  }

  lemma GrayscaleEntry()
    ensures FILTERS[5].filter == "grayscale(1)"
  {
  }

  lemma VintageTokens()
    ensures Tokens(Chain(Vintage)) == ["sepia(0.5)", "contrast(1.1)", "brightness(0.9)"]
  {
    assert Token(SepiaOf("0.5")) == "sepia(0.5)";
    assert Token(ContrastOf("1.1")) == "contrast(1.1)";
    assert Token(BrightnessOf("0.9")) == "brightness(0.9)";
  }

  lemma VintageJoined()
    ensures Join(["sepia(0.5)", "contrast(1.1)", "brightness(0.9)"], ' ') == FILTERS[6].filter
  {
    VintageSpelled();
    VintageEntry();
  }

  lemma VintageSpelled()
    ensures Join(["sepia(0.5)", "contrast(1.1)", "brightness(0.9)"], ' ') == "sepia(0.5) contrast(1.1) brightness(0.9)"
  {
    JoinThree("sepia(0.5)", "contrast(1.1)", "brightness(0.9)");
    VintageConcat();
  }

  lemma VintageConcat()
    ensures "sepia(0.5)" + " " + "contrast(1.1)" + " " + "brightness(0.9)" == "sepia(0.5) contrast(1.1) brightness(0.9)"
  {
  }

  lemma VintageEntry()
    ensures FILTERS[6].filter == "sepia(0.5) contrast(1.1) brightness(0.9)"
  {
  }
}
