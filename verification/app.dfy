/**
  The application shell (App.tsx): which of the three screens is shown, the
  captured photo and its aspect ratio, and the handlers the screens call.
 */
module AppComponent {
  import opened Wrappers
  import opened Types

  /** A rendered screen, with the properties the editor receives. */
  datatype Screen = CameraScreen | EditorScreen(imageSrc: string, aspect: AspectRatio) | GalleryScreen

  /** A captured image counts only when it is a non-empty string. */
  predicate HasImage(img: Option<string>) {
    img.Some? && img.value != ""
  }

  /** The screens rendered, in document order: each of the three guarded
      elements of the markup contributes its screen when its guard holds. */
  function Screens(view: AppView, img: Option<string>, ar: AspectRatio): seq<Screen> {
    (if view == CameraView then [CameraScreen] else [])
      + (if view == EditorView && HasImage(img) then [EditorScreen(img.value, ar)] else [])
      + (if view == GalleryView then [GalleryScreen] else [])
  }

  /** At most one screen is rendered; the editor exactly in the editor view
      with an image, showing that image at the captured ratio; and nothing at
      all in the editor view without one. */
  lemma ScreenRule(view: AppView, img: Option<string>, ar: AspectRatio)
    ensures var ss := Screens(view, img, ar);
      && |ss| <= 1
      && (ss == [CameraScreen] <==> view == CameraView)
      && (ss == [GalleryScreen] <==> view == GalleryView)
      && ((exists i :: 0 <= i < |ss| && ss[i].EditorScreen?) <==> view == EditorView && HasImage(img))
      && (view == EditorView && HasImage(img) ==> ss == [EditorScreen(img.value, ar)])
      && (ss == [] <==> view == EditorView && !HasImage(img))
  {
    var ss := Screens(view, img, ar);
    match view {
      case CameraView => assert ss == [CameraScreen];
      case GalleryView => assert ss == [GalleryScreen];
      case EditorView =>
        if HasImage(img) {
          assert ss == [EditorScreen(img.value, ar)];
          assert ss[0].EditorScreen?;
        } else {
          assert ss == [];
        }
    }
  }

  class App {
    var currentView: AppView
    var capturedImage: Option<string>
    var capturedAspectRatio: AspectRatio

    /** The camera screen, no photo, `'9:16'`. */
    constructor ()
      ensures currentView == CameraView && capturedImage == None && capturedAspectRatio == Portrait
      ensures Shown() == [CameraScreen]
    {
      currentView, capturedImage, capturedAspectRatio := CameraView, None, Portrait;
    }

    /** What is on screen. */
    function Shown(): seq<Screen>
      reads this
    {
      Screens(currentView, capturedImage, capturedAspectRatio)
    }

    /** `handleCapture`: keep the photo and its ratio and open the editor on
        it (a blank screen if the photo is the empty string). */
    method HandleCapture(imageSrc: string, aspectRatio: AspectRatio)
      modifies this
      ensures currentView == EditorView && capturedImage == Some(imageSrc) && capturedAspectRatio == aspectRatio
      ensures imageSrc != "" ==> Shown() == [EditorScreen(imageSrc, aspectRatio)]
      ensures imageSrc == "" ==> Shown() == []
    {
      capturedImage := Some(imageSrc);
      capturedAspectRatio := aspectRatio;
      currentView := EditorView;
    }

    /** `handleSaveComplete`: drop the photo and show the gallery. */
    method HandleSaveComplete()
      modifies this
      ensures currentView == GalleryView && capturedImage == None
      ensures capturedAspectRatio == old(capturedAspectRatio)
      ensures Shown() == [GalleryScreen]
    {
      currentView := GalleryView;
      capturedImage := None;
    }

    /** `handleCloseEditor`: drop the photo and go back to the camera. */
    method HandleCloseEditor()
      modifies this
      ensures currentView == CameraView && capturedImage == None
      ensures capturedAspectRatio == old(capturedAspectRatio)
      ensures Shown() == [CameraScreen]
    {
      capturedImage := None;
      currentView := CameraView;
    }

    /** `setCurrentView`, which the camera and the gallery call to navigate:
        only the view changes. */
    method Navigate(view: AppView)
      modifies this`currentView
      ensures currentView == view
      ensures Shown() == Screens(view, capturedImage, capturedAspectRatio)
    {
      currentView := view;
    }
  }
}
