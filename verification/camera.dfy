/**
  The camera component (components/Camera.tsx): the capture geometry (the
  output size for the aspect ratio, the cover fit of the video frame, the
  mirror for the front camera), the beauty filter, the two-valued toggles,
  and the decisions `startCamera` takes on the browser's answers: whether to
  retry with basic constraints, and which message to show on failure.
 */
module CameraComponent {
  import opened Wrappers
  import opened Types
  import opened Canvas2D

  /** The camera requested: the front (`'user'`) or the back (`'environment'`) one. */
  datatype Facing = User | Environment

  function FacingName(f: Facing): string {
    match f
    case User => "user"
    case Environment => "environment"
  }

  /** `toggleCamera`'s update. */
  function OtherFacing(f: Facing): Facing {
    if f == User then Environment else User
  }

  /** `toggleAspectRatio`'s update. */
  function OtherAspect(a: AspectRatio): AspectRatio {
    if a == Portrait then Landscape else Portrait
  }

  /** Each toggle moves to the other value, and toggling twice changes nothing. */
  lemma TogglesFlip(f: Facing, a: AspectRatio, b: bool)
    ensures OtherFacing(f) != f && OtherFacing(OtherFacing(f)) == f
    ensures OtherAspect(a) != a && OtherAspect(OtherAspect(a)) == a
    ensures !b != b && !!b == b
  {
  }

  /** The filter applied while capturing in beauty mode. */
  const BEAUTY_FILTER: string := "contrast(0.98) brightness(1.04) saturate(1.04) sepia(0.02)"

  /** The output size: 1080 by 1920 for `'9:16'`, 1920 by 1080 otherwise. */
  datatype Size = Size(w: nat, h: nat)

  function TargetSize(a: AspectRatio): Size {
    if a == Portrait then Size(1080, 1920) else Size(1920, 1080)
  }

  /** The output has the ratio its name says, and the two sizes are each
      other turned sideways. */
  lemma TargetSizeRatio(a: AspectRatio)
    ensures var s := TargetSize(a);
      && s.w > 0 && s.h > 0
      && (a == Portrait ==> 16 * s.w == 9 * s.h)
      && (a == Landscape ==> 9 * s.w == 16 * s.h)
      && TargetSize(OtherAspect(a)) == Size(s.h, s.w)
  {
  }

  /** Where the video frame is drawn: scaled to cover the target and centred.
      A video wider than the target is fitted to the height and cropped at
      the sides; any other is fitted to the width and cropped at the top and
      bottom. */
  function CoverFit(tw: real, th: real, vw: real, vh: real): Rect
    requires tw > 0.0 && th > 0.0 && vw > 0.0 && vh > 0.0
  {
    var videoRatio := vw / vh;
    var targetRatio := tw / th;
    if videoRatio > targetRatio then
      var drawHeight := th;
      var drawWidth := drawHeight * videoRatio;
      Rect((tw - drawWidth) / 2.0, 0.0, drawWidth, drawHeight)
    else
      var drawWidth := tw;
      var drawHeight := drawWidth / videoRatio;
      Rect(0.0, (th - drawHeight) / 2.0, drawWidth, drawHeight)
  }

  /** The drawn rectangle keeps the video's proportions, covers the whole
      target, is centred on it, and meets it exactly along one dimension. */
  lemma {:induction false} CoverFitCovers(tw: real, th: real, vw: real, vh: real)
    requires tw > 0.0 && th > 0.0 && vw > 0.0 && vh > 0.0
    ensures var r := CoverFit(tw, th, vw, vh);
      && r.w * vh == r.h * vw
      && r.x <= 0.0 && r.y <= 0.0
      && r.x + r.w >= tw && r.y + r.h >= th
      && r.x + r.w / 2.0 == tw / 2.0 && r.y + r.h / 2.0 == th / 2.0
      && (r.w == tw || r.h == th)
  {
    var vr := vw / vh;
    var tr := tw / th;
    assert vr * vh == vw;
    assert tr * th == tw;
    if vr > tr {
      assert th * vr > th * tr by { MulStrict(th, tr, vr); }
      assert (th * vr) * vh == th * vw;
    } else {
      var dh := tw / vr;
      assert dh * vr == tw;
      assert dh >= th by { DivAtLeast(tw, vr, th); }
      assert tw * vh == dh * vw by {
        assert dh * vw == dh * (vr * vh);
        assert dh * (vr * vh) == (dh * vr) * vh;
      }
    }
  }

  /** No smaller picture of the video's proportions covers the target: a
      copy scaled by any `k` that covers it is at least as large. */
  lemma {:induction false} CoverFitMinimal(tw: real, th: real, vw: real, vh: real, k: real)
    requires tw > 0.0 && th > 0.0 && vw > 0.0 && vh > 0.0
    requires k > 0.0 && k * vw >= tw && k * vh >= th
    ensures var r := CoverFit(tw, th, vw, vh);
      r.w <= k * vw && r.h <= k * vh
  {
    var r := CoverFit(tw, th, vw, vh);
    CoverFitCovers(tw, th, vw, vh);
    if r.h == th {
      // r.w = th * vw / vh and k * vh >= th.
      assert r.w * vh == th * vw;
      assert r.w * vh <= (k * vw) * vh by {
        assert th * vw <= (k * vh) * vw by { MulMono(th, k * vh, vw); }
      }
      MulCancel(r.w, k * vw, vh);
    } else {
      assert r.w == tw;
      assert r.h * vw == tw * vh;
      assert r.h * vw <= (k * vh) * vw by {
        assert tw * vh <= (k * vw) * vh by { MulMono(tw, k * vw, vh); }
      }
      MulCancel(r.h, k * vh, vw);
    }
  }

  lemma MulStrict(c: real, a: real, b: real)
    requires c > 0.0 && a < b
    ensures c * a < c * b
  {
  }

  lemma MulMono(a: real, b: real, c: real)
    requires a <= b && c >= 0.0
    ensures a * c <= b * c
  {
  }

  lemma MulCancel(a: real, b: real, c: real)
    requires c > 0.0 && a * c <= b * c
    ensures a <= b
  {
  }

  lemma DivAtLeast(t: real, v: real, h: real)
    requires t > 0.0 && v > 0.0 && h > 0.0 && v <= t / h
    ensures t / v >= h
  {
    assert v * h <= (t / h) * h;
  }

  /** `translate(targetWidth, 0)` then `scale(-1, 1)`: the front camera's
      picture is mirrored. */
  function Mirror(tw: real): Matrix {
    Scaled(Translated(Identity, tw, 0.0), -1.0, 1.0)
  }

  /** The mirror reflects about the vertical line through the target's
      centre, and maps the centred cover-fit rectangle onto itself, so the
      mirrored picture still covers the target exactly as before. */
  lemma {:induction false} MirrorReflects(tw: real, th: real, vw: real, vh: real, x: real, y: real)
    requires tw > 0.0 && th > 0.0 && vw > 0.0 && vh > 0.0
    ensures ApplyX(Mirror(tw), x, y) == tw - x && ApplyY(Mirror(tw), x, y) == y
    ensures var r := CoverFit(tw, th, vw, vh);
      ApplyX(Mirror(tw), r.x + r.w, y) == r.x && ApplyX(Mirror(tw), r.x, y) == r.x + r.w
  {
    CoverFitCovers(tw, th, vw, vh);
  }

  /** The drawing state the video frame is drawn under: mirrored for the
      front camera, filtered in beauty mode, the rest as the resized canvas
      left it. */
  function CaptureState(facing: Facing, beauty: bool, tw: real): Attrs {
    Defaults.(transform := if facing == User then Mirror(tw) else Identity,
              filter := if beauty then BEAUTY_FILTER else NoCssFilter)
  }

  /** The capture applies the beauty filter exactly in beauty mode, and the
      mirror exactly for the front camera. */
  lemma CaptureStateChoices(facing: Facing, beauty: bool, tw: real)
    ensures var a := CaptureState(facing, beauty, tw);
      && (a.filter == BEAUTY_FILTER <==> beauty)
      && (a.filter == "none" <==> !beauty)
      && (a.transform == Identity <==> facing == Environment)
  {
    if beauty {
      assert BEAUTY_FILTER != NoCssFilter;
    }
    if facing == User {
      assert Mirror(tw).a == -1.0;
    }
  }

  /** What `getUserMedia` rejected with: the error's name and message. */
  datatype MediaError = MediaError(name: string, message: string)

  /** The browser's answer to one `getUserMedia` request. */
  datatype Reply = Granted | Rejected(err: MediaError)

  /** One `getUserMedia` request: the facing mode, with the 1920 by 1080 ideal
      size or with no size at all. */
  datatype Request = Request(facing: Facing, idealSize: bool)

  /** The error thrown when the browser offers no `getUserMedia`. */
  const UNSUPPORTED: MediaError := MediaError("Error", "Seu navegador não suporta acesso à câmera.")

  /** The two fixed messages, each written as two sentence parts. */
  const PERMISSION_MESSAGE: string := "Acesso à câmera negado. " + "Por favor, permita o acesso nas configurações do navegador."
  const NOT_FOUND_MESSAGE: string := "Nenhuma câmera " + "encontrada neste dispositivo."
  const GENERIC_PREFIX: string := "Erro ao acessar a câmera: "
  const UNKNOWN_DETAIL: string := "Desconhecido"

  /** Only a failure to meet the size constraints is retried. */
  predicate RetryWithBasic(e: MediaError) {
    e.name == "OverconstrainedError" || e.name == "ConstraintNotSatisfiedError"
  }

  /** The requests `startCamera` makes: none without `getUserMedia`, the
      ideal-size request, and after a constraint failure a basic one. */
  function Requests(facing: Facing, supported: bool, first: Reply): seq<Request> {
    if !supported then []
    else if first.Rejected? && RetryWithBasic(first.err) then [Request(facing, true), Request(facing, false)]
    else [Request(facing, true)]
  }

  /** How `startCamera`'s attempts end: the stream, or the error that reaches
      the outer handler. */
  function StartOutcome(supported: bool, first: Reply, second: Reply): Reply {
    if !supported then Rejected(UNSUPPORTED)
    else if first.Granted? then Granted
    else if RetryWithBasic(first.err) then second
    else first
  }

  /** The retry happens exactly after a constraint failure, asks for the
      same camera without a size, and its answer is the final one; every
      other rejection of the first request is final. */
  lemma RetryRule(facing: Facing, supported: bool, first: Reply, second: Reply)
    ensures var rs := Requests(facing, supported, first);
      && (|rs| == 2 <==> supported && first.Rejected? && RetryWithBasic(first.err))
      && (forall i :: 0 <= i < |rs| ==> rs[i].facing == facing && (rs[i].idealSize <==> i == 0))
      && (|rs| == 2 ==> StartOutcome(supported, first, second) == second)
      && (|rs| == 1 ==> StartOutcome(supported, first, second) == first)
      && (|rs| == 0 ==> StartOutcome(supported, first, second) == Rejected(UNSUPPORTED))
  {
  }

  /** The message shown for an error. */
  function ErrorMessage(e: MediaError): string {
    if e.name == "NotAllowedError" || e.name == "PermissionDeniedError" then PERMISSION_MESSAGE
    else if e.name == "NotFoundError" then NOT_FOUND_MESSAGE
    else GENERIC_PREFIX + (if e.message != "" then e.message else UNKNOWN_DETAIL)
  }

  /** The message is never empty; it is the permission message exactly for
      the two permission errors, the no-camera message exactly for
      `NotFoundError`, and otherwise the generic prefix followed by the
      error's own message (or "Desconhecido" when it has none). */
  lemma ErrorMessageClassifies(e: MediaError)
    ensures var m := ErrorMessage(e);
      && m != ""
      && (m == PERMISSION_MESSAGE <==> e.name == "NotAllowedError" || e.name == "PermissionDeniedError")
      && (m == NOT_FOUND_MESSAGE <==> e.name == "NotFoundError")
      && (m != PERMISSION_MESSAGE && m != NOT_FOUND_MESSAGE ==>
            |m| > |GENERIC_PREFIX| && m[..|GENERIC_PREFIX|] == GENERIC_PREFIX
            && m[|GENERIC_PREFIX|..] == (if e.message != "" then e.message else UNKNOWN_DETAIL))
  {
    var m := ErrorMessage(e);
    assert PERMISSION_MESSAGE[0] == 'A' && NOT_FOUND_MESSAGE[0] == 'N';
    if !(e.name == "NotAllowedError" || e.name == "PermissionDeniedError" || e.name == "NotFoundError") {
      var detail := if e.message != "" then e.message else UNKNOWN_DETAIL;
      assert m == GENERIC_PREFIX + detail;
      assert GENERIC_PREFIX[0] == 'E';
      assert m[0] == GENERIC_PREFIX[0];
      assert m[..|GENERIC_PREFIX|] == GENERIC_PREFIX;
      assert m[|GENERIC_PREFIX|..] == detail;
    }
  }

  /** An unsupported browser reports the generic message with its own text. */
  lemma UnsupportedMessage()
    ensures ErrorMessage(UNSUPPORTED) == GENERIC_PREFIX + "Seu navegador não suporta acesso à câmera."
  {
  }

  class Camera {
    const canvas: Canvas
    var facingMode: Facing
    var aspectRatio: AspectRatio
    var isBeautyMode: bool
    var isFocusActive: bool
    var error: string
    var isLoading: bool
    /** Whether a stream is open. */
    var streaming: bool

    /** The initial state: front camera, `'9:16'`, no beauty mode, no
        focus mode, loading. */
    constructor (canvas: Canvas)
      ensures this.canvas == canvas
      ensures facingMode == User && aspectRatio == Portrait
      ensures !isBeautyMode && !isFocusActive && error == "" && isLoading && !streaming
    {
      this.canvas := canvas;
      facingMode, aspectRatio := User, Portrait;
      isBeautyMode, isFocusActive := false, false;
      error, isLoading, streaming := "", true, false;
    }

    /** The shutter is enabled only with no error and nothing loading. */
    predicate CanCapture()
      reads this
    {
      error == "" && !isLoading
    }

    method ToggleCamera()
      modifies this`facingMode
      ensures facingMode == OtherFacing(old(facingMode))
    {
      facingMode := if facingMode == User then Environment else User;
    }

    method ToggleAspectRatio()
      modifies this`aspectRatio
      ensures aspectRatio == OtherAspect(old(aspectRatio))
    {
      aspectRatio := if aspectRatio == Portrait then Landscape else Portrait;
    }

    method ToggleBeautyMode()
      modifies this`isBeautyMode
      ensures isBeautyMode == !old(isBeautyMode)
    {
      isBeautyMode := !isBeautyMode;
    }

    method ToggleFocusMode()
      modifies this`isFocusActive
      ensures isFocusActive == !old(isFocusActive)
    {
      isFocusActive := !isFocusActive;
    }

    /** `startCamera`, given whether the browser offers `getUserMedia` and its
        answers to the first and (if made) the second request: close the
        old stream, make the requests, and end with the stream open or the
        error's message shown. Returns the requests made. */
    method StartCamera(supported: bool, first: Reply, second: Reply) returns (requests: seq<Request>)
      modifies this`error, this`isLoading, this`streaming
      ensures requests == Requests(facingMode, supported, first)
      ensures var outcome := StartOutcome(supported, first, second);
        && streaming == outcome.Granted?
        && error == (if outcome.Granted? then "" else ErrorMessage(outcome.err))
        && !isLoading
        && (CanCapture() <==> outcome.Granted?)
    {
      streaming := false;
      isLoading := true;
      error := "";
      requests := [];
      var outcome: Reply;
      if !supported {
        outcome := Rejected(UNSUPPORTED);
      } else {
        requests := requests + [Request(facingMode, true)];
        if first.Granted? {
          outcome := Granted;
        } else if first.err.name == "OverconstrainedError" || first.err.name == "ConstraintNotSatisfiedError" {
          requests := requests + [Request(facingMode, false)];
          outcome := second;
        } else {
          outcome := first;
        }
      }
      if outcome.Granted? {
        streaming := true;
      } else {
        var e := outcome.err;
        if e.name == "NotAllowedError" || e.name == "PermissionDeniedError" {
          error := PERMISSION_MESSAGE;
        } else if e.name == "NotFoundError" {
          error := NOT_FOUND_MESSAGE;
        } else {
          error := GENERIC_PREFIX + (if e.message != "" then e.message else UNKNOWN_DETAIL);
        }
        ErrorMessageClassifies(e);
      }
      isLoading := false;
    }

    /** `capturePhoto` for a video frame of `videoW` by `videoH` pixels, with
        `encoded` standing for what `toDataURL` returns: resize the canvas to
        the target, draw the frame once, cover-fitted, under the mirror and
        filter chosen, reset the transform and the filter, and hand the
        encoded picture and the aspect ratio on. */
    method CapturePhoto(videoW: nat, videoH: nat, encoded: string) returns (imageSrc: string, ar: AspectRatio)
      requires videoW > 0 && videoH > 0
      modifies canvas
      ensures var t := TargetSize(aspectRatio);
        && canvas.width == t.w && canvas.height == t.h
        && canvas.paints == [Paint(DrawImage(VideoFeed, CoverFit(t.w as real, t.h as real, videoW as real, videoH as real)),
                                   CaptureState(facingMode, isBeautyMode, t.w as real))]
        && canvas.attrs == Defaults && canvas.stack == []
      ensures imageSrc == encoded && ar == aspectRatio
    {
      var targetWidth: nat, targetHeight: nat;
      if aspectRatio == Portrait {
        targetWidth, targetHeight := 1080, 1920;
      } else {
        targetWidth, targetHeight := 1920, 1080;
      }
      canvas.SetWidth(targetWidth);
      canvas.SetHeight(targetHeight);
      var tw, th := targetWidth as real, targetHeight as real;
      var videoRatio := videoW as real / videoH as real;
      var targetRatio := tw / th;
      var drawWidth, drawHeight, startX, startY;
      if videoRatio > targetRatio {
        drawHeight := th;
        drawWidth := drawHeight * videoRatio;
        startY := 0.0;
        startX := (tw - drawWidth) / 2.0;
      } else {
        drawWidth := tw;
        drawHeight := drawWidth / videoRatio;
        startX := 0.0;
        startY := (th - drawHeight) / 2.0;
      }
      assert Rect(startX, startY, drawWidth, drawHeight) == CoverFit(tw, th, videoW as real, videoH as real);
      if facingMode == User {
        canvas.Translate(tw, 0.0);
        canvas.Scale(-1.0, 1.0);
      }
      if isBeautyMode {
        canvas.SetFilter(BEAUTY_FILTER);
      } else {
        canvas.SetFilter(NoCssFilter);
      }
      assert canvas.attrs == CaptureState(facingMode, isBeautyMode, tw);
      canvas.Issue(DrawImage(VideoFeed, Rect(startX, startY, drawWidth, drawHeight)));
      canvas.SetTransform(Matrix(1.0, 0.0, 0.0, 1.0, 0.0, 0.0));
      canvas.SetFilter(NoCssFilter);
      imageSrc, ar := encoded, aspectRatio;
    }
  }
}
