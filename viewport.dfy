/**
 * The viewer's interaction state and, for each window message that changes
 * it, the new state as a function of the old one. The class in viewer.dfy
 * holds the same state in mutable fields and is specified by these
 * functions.
 */
module Viewport {
  import opened CppArith

  /** A pointer position in client coordinates (the Win32 POINT). */
  datatype Point = Point(x: int, y: int)

  /** A rectangle in client coordinates (the Win32 RECT). */
  datatype Rect = Rect(left: int, top: int, right: int, bottom: int)
  {
    function Width(): int { right - left }
    function Height(): int { bottom - top }
  }

  /** The zoom clamp bounds and the per-notch wheel factors. */
  const MinZoom: real := 0.1
  const MaxZoom: real := 8.0
  const ZoomInFactor: real := 1.25
  const ZoomOutFactor: real := 0.8

  /**
   * The process-wide viewer state: whether an image is loaded and its
   * dimensions, the zoom factor (an exact real in place of a double), the
   * top-left placement of the scaled image, the drag flag with the last
   * pointer position, and the client rectangle.
   */
  datatype ViewState = ViewState(
    hasImage: bool,
    imgW: int,
    imgH: int,
    zoom: real,
    panX: int,
    panY: int,
    drag: bool,
    last: Point,
    view: Rect)

  predicate ZoomInRange(z: real) {
    MinZoom <= z <= MaxZoom
  }

  /** The state at startup: statics are zero-initialised, the zoom is 1.0. */
  function Initial(): (s: ViewState)
    ensures !s.hasImage && !s.drag && ZoomInRange(s.zoom)
    ensures s.zoom == 1.0 && s.panX == 0 && s.panY == 0
  {
    ViewState(false, 0, 0, 1.0, 0, 0, false, Point(0, 0), Rect(0, 0, 0, 0))
  }

  /** The displayed size of one image dimension: `int(size * zoom)`. */
  function ScaledSize(size: int, zoom: real): (s: int)
    ensures size >= 0 && zoom >= 0.0 ==> 0 <= s && s as real <= size as real * zoom < s as real + 1.0
    ensures zoom == 1.0 ==> s == size
  {
    Truncate(size as real * zoom)
  }

  /**
   * The pan offset that centres a dimension of `size` pixels, scaled by
   * `zoom`, in a client extent of `extent`: `(extent - scaled) / 2` with
   * C++ division. The margin left over on the far side is the near one or
   * one more when the image fits, and the near one or one less when it
   * overflows.
   */
  function CenteredOffset(extent: int, size: int, zoom: real): (p: int)
    ensures var farMargin := extent - (p + ScaledSize(size, zoom));
      (extent >= ScaledSize(size, zoom) ==> 0 <= farMargin - p <= 1) &&
      (extent < ScaledSize(size, zoom) ==> -1 <= farMargin - p <= 0)
  {
    TruncDiv2(extent - ScaledSize(size, zoom))
  }

  /** CenterImage: recentre the pan for the current image, zoom and view;
      nothing else changes. */
  function Center(s: ViewState): (r: ViewState)
    ensures r.panX == CenteredOffset(s.view.Width(), s.imgW, s.zoom)
    ensures r.panY == CenteredOffset(s.view.Height(), s.imgH, s.zoom)
    ensures r == s.(panX := r.panX, panY := r.panY)
  {
    s.(panX := CenteredOffset(s.view.Width(), s.imgW, s.zoom),
       panY := CenteredOffset(s.view.Height(), s.imgH, s.zoom))
  }

  /**
   * LoadImage after the decoder has run: a failed decode leaves every
   * field as it was; a successful one stores the dimensions, resets the
   * zoom to 1.0, centres the image at its natural size in the current view
   * and marks an image as loaded, leaving the drag state and view alone.
   */
  function Load(s: ViewState, decoded: bool, w: int, h: int): (r: ViewState)
    ensures !decoded ==> r == s
    ensures decoded ==>
      r.hasImage && r.imgW == w && r.imgH == h && r.zoom == 1.0 &&
      r.panX == TruncDiv2(s.view.Width() - w) &&
      r.panY == TruncDiv2(s.view.Height() - h) &&
      r.drag == s.drag && r.last == s.last && r.view == s.view
  {
    if !decoded then s
    else Center(s.(imgW := w, imgH := h, zoom := 1.0)).(hasImage := true)
  }

  /** WM_SIZE: store the new client rectangle; recentre only when an image
      is loaded, otherwise keep the pan. */
  function Resize(s: ViewState, client: Rect): (r: ViewState)
    ensures r.view == client
    ensures s.hasImage ==> r == Center(s.(view := client))
    ensures !s.hasImage ==> r == s.(view := client)
  {
    var t := s.(view := client);
    if s.hasImage then Center(t) else t
  }

  /** The factor one wheel notch applies: in for a positive delta, out for
      zero or negative. */
  function WheelFactor(delta: int): (f: real)
    ensures delta > 0 ==> f == ZoomInFactor
    ensures delta <= 0 ==> f == ZoomOutFactor
  {
    if delta > 0 then ZoomInFactor else ZoomOutFactor
  }

  /** Clamp a zoom into [MinZoom, MaxZoom], lower bound first. */
  function ClampZoom(z: real): (c: real)
    ensures ZoomInRange(c)
    ensures ZoomInRange(z) ==> c == z
    ensures z < MinZoom ==> c == MinZoom
    ensures z > MaxZoom ==> c == MaxZoom
  {
    var low := if z < MinZoom then MinZoom else z;
    if low > MaxZoom then MaxZoom else low
  }

  /**
   * WM_MOUSEWHEEL: multiply the zoom by the notch factor and clamp it.
   * Whatever the starting zoom, the result is in range; from a zoom in
   * range, zooming in never shrinks and zooming out never grows it; the
   * pan, the drag state and everything else are untouched.
   */
  function Wheel(s: ViewState, delta: int): (r: ViewState)
    ensures ZoomInRange(r.zoom)
    ensures r.zoom == ClampZoom(s.zoom * WheelFactor(delta))
    ensures ZoomInRange(s.zoom) && delta > 0 ==> s.zoom <= r.zoom
    ensures ZoomInRange(s.zoom) && delta <= 0 ==> r.zoom <= s.zoom
    ensures r == s.(zoom := r.zoom)
  {
    s.(zoom := ClampZoom(s.zoom * WheelFactor(delta)))
  }

  /** WM_LBUTTONDOWN: start dragging from `at`; zoom and pan unchanged. */
  function Press(s: ViewState, at: Point): (r: ViewState)
    ensures r.drag && r.last == at
    ensures r.zoom == s.zoom && r.panX == s.panX && r.panY == s.panY
    ensures r == s.(drag := true, last := at)
  {
    s.(drag := true, last := at)
  }

  /** WM_LBUTTONUP: stop dragging; nothing else changes. */
  function Release(s: ViewState): (r: ViewState)
    ensures !r.drag
    ensures r == s.(drag := false)
  {
    s.(drag := false)
  }

  /**
   * WM_MOUSEMOVE: while dragging, the pan moves by the pointer's
   * displacement since the last position, which becomes `to`; when not
   * dragging nothing changes.
   */
  function Move(s: ViewState, to: Point): (r: ViewState)
    ensures s.drag ==>
      r.panX - s.panX == to.x - s.last.x &&
      r.panY - s.panY == to.y - s.last.y &&
      r.last == to &&
      r == s.(panX := r.panX, panY := r.panY, last := to)
    ensures !s.drag ==> r == s
  {
    if s.drag then
      s.(panX := s.panX + (to.x - s.last.x),
         panY := s.panY + (to.y - s.last.y),
         last := to)
    else s
  }

  /**
   * The window messages WndProc handles, with the outcome of the OS calls
   * they make passed in: the client rectangle GetClientRect reports, the
   * wheel delta and pointer position decoded from the message parameters,
   * and for a double click whether the open-file dialog returned a path and
   * whether the decoder accepted the file (with its dimensions).
   * Windows delivers LButtonDblClk only to a window whose class has the
   * CS_DBLCLKS style, which the viewer's class does not request; the model
   * nonetheless lets the message arrive.
   */
  datatype Msg =
    | Size(client: Rect)
    | MouseWheel(delta: int)
    | LButtonDown(at: Point)
    | LButtonUp
    | MouseMove(to: Point)
    | Paint
    | LButtonDblClk(picked: bool, decoded: bool, w: int, h: int)
    | Destroy

  /** A message that loads an image, that is, one after which an image is
      displayed whatever was there before. */
  predicate LoadsImage(m: Msg) {
    m.LButtonDblClk? && m.picked && m.decoded
  }

  /** WndProc's effect on the viewer state. Painting only reads the state;
      destroying the window only posts the quit message. */
  function Step(s: ViewState, m: Msg): (r: ViewState)
    ensures ZoomInRange(s.zoom) ==> ZoomInRange(r.zoom)
    ensures r.hasImage <==> s.hasImage || LoadsImage(m)
  {
    match m
    case Size(client) => Resize(s, client)
    case MouseWheel(delta) => Wheel(s, delta)
    case LButtonDown(at) => Press(s, at)
    case LButtonUp => Release(s)
    case MouseMove(to) => Move(s, to)
    case Paint => s
    case LButtonDblClk(picked, decoded, w, h) => if picked then Load(s, decoded, w, h) else s
    case Destroy => s
  }

  /** The state after handling the messages in order. */
  function Run(s: ViewState, ms: seq<Msg>): ViewState
    decreases |ms|
  {
    if ms == [] then s else Run(Step(s, ms[0]), ms[1..])
  }
}
