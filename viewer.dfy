/**
 * The viewer's globals as the fields of one object, and WndProc's handlers
 * as methods that update them statement by statement. Each method's new
 * state is the corresponding function of module Viewport applied to the
 * old state, so the properties proved there hold of the object.
 */
module ViewerXp {
  import opened CppArith
  import opened Viewport

  class Viewer {
    var hasImage: bool
    var imgW: int
    var imgH: int
    var zoom: real
    var panX: int
    var panY: int
    var drag: bool
    var last: Point
    var view: Rect

    /** The object's fields as a state value. */
    function State(): ViewState
      reads this
    {
      ViewState(hasImage, imgW, imgH, zoom, panX, panY, drag, last, view)
    }

    /** The object invariant: the zoom is clamped. */
    ghost predicate Valid()
      reads this
    {
      ZoomInRange(zoom)
    }

    /** The statics' initial values. */
    constructor ()
      ensures Valid()
      ensures State() == Initial()
    {
      hasImage := false;
      imgW, imgH := 0, 0;
      zoom := 1.0;
      panX, panY := 0, 0;
      drag := false;
      last := Point(0, 0);
      view := Rect(0, 0, 0, 0);
    }

    /** CenterImage: place the scaled image in the middle of the view. */
    method CenterImage()
      requires Valid()
      modifies this
      ensures Valid()
      ensures State() == Center(old(State()))
      ensures panX == CenteredOffset(view.Width(), imgW, zoom)
      ensures panY == CenteredOffset(view.Height(), imgH, zoom)
    {
      var vw := view.right - view.left;
      var vh := view.bottom - view.top;
      panX := TruncDiv2(vw - ScaledSize(imgW, zoom));
      panY := TruncDiv2(vh - ScaledSize(imgH, zoom));
    }

    /**
     * LoadImage once the decoder has run: `decoded` is whether it returned
     * pixels, `w` and `h` the dimensions it reported. The result is whether
     * the image was taken.
     */
    method LoadImage(decoded: bool, w: int, h: int) returns (loaded: bool)
      requires Valid()
      modifies this
      ensures Valid()
      ensures loaded == decoded
      ensures State() == Load(old(State()), decoded, w, h)
      ensures !decoded ==> unchanged(this)
    {
      if !decoded {
        return false;
      }
      imgW := w;
      imgH := h;
      zoom := 1.0;
      CenterImage();
      hasImage := true;
      return true;
    }

    /** WM_SIZE with the rectangle GetClientRect reported. */
    method OnSize(client: Rect)
      requires Valid()
      modifies this
      ensures Valid()
      ensures State() == Resize(old(State()), client)
    {
      view := client;
      if hasImage {
        CenterImage();
      }
    }

    /** WM_MOUSEWHEEL with the signed wheel delta of the message. */
    method OnMouseWheel(delta: int)
      requires Valid()
      modifies this
      ensures Valid()
      ensures State() == Wheel(old(State()), delta)
      ensures zoom == ClampZoom(old(zoom) * WheelFactor(delta))
    {
      zoom := zoom * (if delta > 0 then ZoomInFactor else ZoomOutFactor);
      if zoom < MinZoom {
        zoom := MinZoom;
      }
      if zoom > MaxZoom {
        zoom := MaxZoom;
      }
    }

    /** WM_LBUTTONDOWN at pointer position `at`. */
    method OnLButtonDown(at: Point)
      requires Valid()
      modifies this
      ensures Valid()
      ensures State() == Press(old(State()), at)
    {
      drag := true;
      last := at;
    }

    /** WM_LBUTTONUP. */
    method OnLButtonUp()
      requires Valid()
      modifies this
      ensures Valid()
      ensures State() == Release(old(State()))
    {
      drag := false;
    }

    /** WM_MOUSEMOVE at pointer position `to`. */
    method OnMouseMove(to: Point)
      requires Valid()
      modifies this
      ensures Valid()
      ensures State() == Move(old(State()), to)
      ensures old(drag) ==> panX == old(panX) + (to.x - old(last).x) && panY == old(panY) + (to.y - old(last).y)
      ensures !old(drag) ==> unchanged(this)
    {
      if drag {
        var x := to.x;
        var y := to.y;
        panX := panX + (x - last.x);
        panY := panY + (y - last.y);
        last := Point(x, y);
      }
    }

    /** WndProc: dispatch one message to its handler. */
    method WndProc(m: Msg)
      requires Valid()
      modifies this
      ensures Valid()
      ensures State() == Step(old(State()), m)
    {
      match m
      case Size(client) => OnSize(client);
      case MouseWheel(delta) => OnMouseWheel(delta);
      case LButtonDown(at) => OnLButtonDown(at);
      case LButtonUp => OnLButtonUp();
      case MouseMove(to) => OnMouseMove(to);
      case Paint =>
      case LButtonDblClk(picked, decoded, w, h) =>
        if picked {
          var _ := LoadImage(decoded, w, h);
        }
      case Destroy =>
    }
  }
}
