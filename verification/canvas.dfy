/**
  The part of the browser's 2D canvas that the editor and the camera use:
  a bitmap size, a drawing state (filter, styles, line width, font, text
  placement, shadow, transform), a stack of saved drawing states, and the
  painting operations issued so far. Rasterisation is not modelled: each
  painting operation is recorded with the drawing state in effect when it
  was issued, which is everything the browser uses to rasterise it.
 */
module Canvas2D {

  /** An affine transform `[a c e; b d f; 0 0 1]`, as in `setTransform(a, b, c, d, e, f)`. */
  datatype Matrix = Matrix(a: real, b: real, c: real, d: real, e: real, f: real)

  const Identity: Matrix := Matrix(1.0, 0.0, 0.0, 1.0, 0.0, 0.0)

  /** The transform that applies `n` first and then `m`. */
  function Compose(m: Matrix, n: Matrix): Matrix {
    Matrix(m.a * n.a + m.c * n.b, m.b * n.a + m.d * n.b,
           m.a * n.c + m.c * n.d, m.b * n.c + m.d * n.d,
           m.a * n.e + m.c * n.f + m.e, m.b * n.e + m.d * n.f + m.f)
  }

  /** The image of the point (x, y). */
  function ApplyX(m: Matrix, x: real, y: real): real { m.a * x + m.c * y + m.e }
  function ApplyY(m: Matrix, x: real, y: real): real { m.b * x + m.d * y + m.f }

  /** `translate(tx, ty)` and `scale(sx, sy)` post-multiply the current transform. */
  function Translated(m: Matrix, tx: real, ty: real): Matrix {
    Compose(m, Matrix(1.0, 0.0, 0.0, 1.0, tx, ty))
  }

  function Scaled(m: Matrix, sx: real, sy: real): Matrix {
    Compose(m, Matrix(sx, 0.0, 0.0, sy, 0.0, 0.0))
  }

  /** Composing transforms composes their actions on points. */
  lemma ComposeApplies(m: Matrix, n: Matrix, x: real, y: real)
    ensures ApplyX(Compose(m, n), x, y) == ApplyX(m, ApplyX(n, x, y), ApplyY(n, x, y))
    ensures ApplyY(Compose(m, n), x, y) == ApplyY(m, ApplyX(n, x, y), ApplyY(n, x, y))
  {
  }

  datatype ColorStop = ColorStop(offset: real, color: string)

  /** A fill or stroke style: a CSS colour, or a radial gradient between two circles. */
  datatype Style =
    | Color(css: string)
    | RadialGradient(x0: real, y0: real, r0: real, x1: real, y1: real, r1: real, stops: seq<ColorStop>)

  /** A CSS font as the canvas holds it: weight, size in pixels and family list. */
  datatype Font = Font(weight: string, sizePx: real, family: string)

  /** The drawing state that `save()` pushes and `restore()` pops. */
  datatype Attrs = Attrs(
    filter: string,
    fillStyle: Style,
    strokeStyle: Style,
    lineWidth: real,
    font: Font,
    textAlign: string,
    textBaseline: string,
    shadowColor: string,
    shadowBlur: real,
    shadowOffsetX: real,
    shadowOffsetY: real,
    transform: Matrix)

  /** The initial values of a context's string-valued attributes. */
  const NoCssFilter: string := "none"
  const DefaultColor: string := "#000000"
  const DefaultFont: Font := Font("normal", 10.0, "sans-serif")
  const DefaultAlign: string := "start"
  const DefaultBaseline: string := "alphabetic"
  const DefaultShadowColor: string := "rgba(0, 0, 0, 0)"

  /** The state of a fresh context, and of any context whose canvas was resized. */
  const Defaults: Attrs := Attrs(
    NoCssFilter, Color(DefaultColor), Color(DefaultColor), 1.0, DefaultFont,
    DefaultAlign, DefaultBaseline, DefaultShadowColor, 0.0, 0.0, 0.0, Identity)

  datatype Rect = Rect(x: real, y: real, w: real, h: real)

  /** What `drawImage` reads from: a decoded image (by its source URL) or the live video. */
  datatype ImageSource = ImageOf(src: string) | VideoFeed

  /** A painting operation. Every `drawImage` call of the application reads the
      whole source image, so only the destination rectangle is kept. */
  datatype Op =
    | ClearRect(r: Rect)
    | DrawImage(source: ImageSource, dest: Rect)
    | StrokeRect(r: Rect)
    | FillRect(r: Rect)
    | FillText(text: string, x: real, y: real)

  /** A painting operation together with the drawing state it was issued under. */
  datatype Paint = Paint(op: Op, state: Attrs)

  class Canvas {
    var width: nat
    var height: nat
    var attrs: Attrs
    var stack: seq<Attrs>
    var paints: seq<Paint>

    /** A new canvas element is 300 by 150 pixels and blank. */
    constructor ()
      ensures width == 300 && height == 150
      ensures attrs == Defaults && stack == [] && paints == []
    {
      width, height := 300, 150;
      attrs, stack, paints := Defaults, [], [];
    }

    /** Setting `canvas.width`, even to its current value, clears the bitmap
        and resets the drawing state and its stack. */
    method SetWidth(w: nat)
      modifies this
      ensures width == w && height == old(height)
      ensures attrs == Defaults && stack == [] && paints == []
    {
      width := w;
      attrs, stack, paints := Defaults, [], [];
    }

    /** Setting `canvas.height` does the same. */
    method SetHeight(h: nat)
      modifies this
      ensures height == h && width == old(width)
      ensures attrs == Defaults && stack == [] && paints == []
    {
      height := h;
      attrs, stack, paints := Defaults, [], [];
    }

    method SetFilter(f: string)
      modifies this`attrs
      ensures attrs == old(attrs).(filter := f)
    {
      attrs := attrs.(filter := f);
    }

    method SetFillStyle(s: Style)
      modifies this`attrs
      ensures attrs == old(attrs).(fillStyle := s)
    {
      attrs := attrs.(fillStyle := s);
    }

    method SetStrokeStyle(s: Style)
      modifies this`attrs
      ensures attrs == old(attrs).(strokeStyle := s)
    {
      attrs := attrs.(strokeStyle := s);
    }

    method SetLineWidth(lw: real)
      modifies this`attrs
      ensures attrs == old(attrs).(lineWidth := lw)
    {
      attrs := attrs.(lineWidth := lw);
    }

    method SetFont(font: Font)
      modifies this`attrs
      ensures attrs == old(attrs).(font := font)
    {
      attrs := attrs.(font := font);
    }

    method SetTextAlign(align: string)
      modifies this`attrs
      ensures attrs == old(attrs).(textAlign := align)
    {
      attrs := attrs.(textAlign := align);
    }

    method SetTextBaseline(baseline: string)
      modifies this`attrs
      ensures attrs == old(attrs).(textBaseline := baseline)
    {
      attrs := attrs.(textBaseline := baseline);
    }

    method SetShadowColor(c: string)
      modifies this`attrs
      ensures attrs == old(attrs).(shadowColor := c)
    {
      attrs := attrs.(shadowColor := c);
    }

    method SetShadowBlur(b: real)
      modifies this`attrs
      ensures attrs == old(attrs).(shadowBlur := b)
    {
      attrs := attrs.(shadowBlur := b);
    }

    method SetShadowOffset(dx: real, dy: real)
      modifies this`attrs
      ensures attrs == old(attrs).(shadowOffsetX := dx, shadowOffsetY := dy)
    {
      attrs := attrs.(shadowOffsetX := dx, shadowOffsetY := dy);
    }

    method Translate(tx: real, ty: real)
      modifies this`attrs
      ensures attrs == old(attrs).(transform := Translated(old(attrs).transform, tx, ty))
    {
      attrs := attrs.(transform := Translated(attrs.transform, tx, ty));
    }

    method Scale(sx: real, sy: real)
      modifies this`attrs
      ensures attrs == old(attrs).(transform := Scaled(old(attrs).transform, sx, sy))
    {
      attrs := attrs.(transform := Scaled(attrs.transform, sx, sy));
    }

    method SetTransform(m: Matrix)
      modifies this`attrs
      ensures attrs == old(attrs).(transform := m)
    {
      attrs := attrs.(transform := m);
    }

    /** `save()` pushes the drawing state. */
    method Save()
      modifies this`stack
      ensures stack == old(stack) + [attrs]
    {
      stack := stack + [attrs];
    }

    /** `restore()` pops the drawing state; on an empty stack it does nothing. */
    method Restore()
      modifies this`stack, this`attrs
      ensures old(stack) == [] ==> stack == [] && attrs == old(attrs)
      ensures old(stack) != [] ==>
        stack == old(stack)[..|old(stack)| - 1] && attrs == old(stack)[|old(stack)| - 1]
    {
      if stack != [] {
        attrs := stack[|stack| - 1];
        stack := stack[..|stack| - 1];
      }
    }

    /** Issues a painting operation under the current drawing state. */
    method Issue(op: Op)
      modifies this`paints
      ensures paints == old(paints) + [Paint(op, attrs)]
    {
      paints := paints + [Paint(op, attrs)];
    }
  }
}
