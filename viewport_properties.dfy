/**
 * Properties of the viewer state that relate several messages: the zoom
 * stays clamped over any run, the wheel saturates at both bounds, a drag
 * telescopes to the total pointer displacement, and an image is shown
 * exactly when one has been loaded.
 */
module ViewportProperties {
  import opened CppArith
  import opened Viewport

  /** The state after a run of wheel notches. */
  function Wheels(s: ViewState, deltas: seq<int>): ViewState
    decreases |deltas|
  {
    if deltas == [] then s else Wheels(Wheel(s, deltas[0]), deltas[1..])
  }

  /** The state after a run of pointer moves. */
  function Moves(s: ViewState, path: seq<Point>): ViewState
    decreases |path|
  {
    if path == [] then s else Moves(Move(s, path[0]), path[1..])
  }

  /** Any run of wheel notches leaves the zoom in [0.1, 8.0], provided it
      started there or at least one notch was applied, and changes nothing
      but the zoom. */
  lemma {:induction false} WheelsKeepZoomInRange(s: ViewState, deltas: seq<int>)
    requires ZoomInRange(s.zoom) || |deltas| > 0
    ensures ZoomInRange(Wheels(s, deltas).zoom)
    ensures Wheels(s, deltas) == s.(zoom := Wheels(s, deltas).zoom)
    decreases |deltas|
  {
    if deltas != [] {
      WheelsKeepZoomInRange(Wheel(s, deltas[0]), deltas[1..]);
    }
  }

  /** Zooming in repeatedly at the upper bound stays there. */
  lemma {:induction false} ZoomInSaturates(s: ViewState, deltas: seq<int>)
    requires s.zoom == MaxZoom
    requires forall i :: 0 <= i < |deltas| ==> deltas[i] > 0
    ensures Wheels(s, deltas) == s
    decreases |deltas|
  {
    if deltas != [] {
      assert Wheel(s, deltas[0]) == s;
      ZoomInSaturates(s, deltas[1..]);
    }
  }

  /** Zooming out repeatedly at the lower bound stays there. */
  lemma {:induction false} ZoomOutSaturates(s: ViewState, deltas: seq<int>)
    requires s.zoom == MinZoom
    requires forall i :: 0 <= i < |deltas| ==> deltas[i] <= 0
    ensures Wheels(s, deltas) == s
    decreases |deltas|
  {
    if deltas != [] {
      assert Wheel(s, deltas[0]) == s;
      ZoomOutSaturates(s, deltas[1..]);
    }
  }

  /** While dragging, a path of moves shifts the pan by exactly the last
      position of the path minus the position before it, records that last
      position, and changes nothing else. */
  lemma {:induction false} DragTelescopes(s: ViewState, path: seq<Point>)
    requires s.drag && |path| > 0
    ensures var r := Moves(s, path);
      r.panX == s.panX + (path[|path| - 1].x - s.last.x) &&
      r.panY == s.panY + (path[|path| - 1].y - s.last.y) &&
      r == s.(panX := r.panX, panY := r.panY, last := path[|path| - 1])
    decreases |path|
  {
    if |path| > 1 {
      DragTelescopes(Move(s, path[0]), path[1..]);
    }
  }

  /** When not dragging, no path of moves changes anything. */
  lemma {:induction false} IdleMovesChangeNothing(s: ViewState, path: seq<Point>)
    requires !s.drag
    ensures Moves(s, path) == s
    decreases |path|
  {
    if path != [] {
      IdleMovesChangeNothing(s, path[1..]);
    }
  }

  /** A drag started at `down` and followed by a path of moves pans the image
      by the final position minus `down`, with the zoom untouched. */
  lemma DragSession(s: ViewState, down: Point, path: seq<Point>)
    requires |path| > 0
    ensures var r := Moves(Press(s, down), path);
      r.panX == s.panX + (path[|path| - 1].x - down.x) &&
      r.panY == s.panY + (path[|path| - 1].y - down.y) &&
      r.zoom == s.zoom && r.drag
  {
    DragTelescopes(Press(s, down), path);
  }

  /** After the button is released, later moves have no effect. */
  lemma MovesAfterReleaseChangeNothing(s: ViewState, path: seq<Point>)
    ensures Moves(Release(s), path) == Release(s)
  {
    IdleMovesChangeNothing(Release(s), path);
  }

  /** Press at (10, 10) and move to (15, 12): the pan shifts by (5, 2); after
      the release a further move changes nothing. */
  lemma DragExample(s: ViewState)
    ensures var t := Move(Press(s, Point(10, 10)), Point(15, 12));
      t.panX == s.panX + 5 && t.panY == s.panY + 2 &&
      Move(Release(t), Point(40, 1)) == Release(t)
  {
  }

  /** Centring a 400x300 image in an 800x600 view: at zoom 1.0 it is placed
      at (200, 150); at zoom 2.0 it fills the view from (0, 0). */
  lemma CenterExample(s: ViewState)
    requires s.view == Rect(0, 0, 800, 600) && s.imgW == 400 && s.imgH == 300
    ensures s.zoom == 1.0 ==> Center(s).panX == 200 && Center(s).panY == 150
    ensures s.zoom == 2.0 ==> ScaledSize(400, 2.0) == 800 && ScaledSize(300, 2.0) == 600
    ensures s.zoom == 2.0 ==> Center(s).panX == 0 && Center(s).panY == 0
  {
    if s.zoom == 1.0 {
      assert ScaledSize(400, 1.0) == 400 && ScaledSize(300, 1.0) == 300;
    }
    if s.zoom == 2.0 {
      ScaledAtDoubleZoom(400);
      ScaledAtDoubleZoom(300);
    }
  }

  /** At zoom 2.0 the scaled size is exactly twice the size. */
  lemma ScaledAtDoubleZoom(size: int)
    requires size >= 0
    ensures ScaledSize(size, 2.0) == 2 * size
  {
    var x := size as real * 2.0;
    assert x == (2 * size) as real;
  }

  /** An image wider than the view is centred with a negative offset,
      truncated toward zero: a 3-pixel overflow gives -1, not -2. */
  lemma CenterOverflowExample(s: ViewState)
    requires s.view == Rect(0, 0, 797, 600) && s.imgW == 800 && s.zoom == 1.0
    ensures Center(s).panX == -1
  {
  }

  /** A zero-height view (a minimised window) is centred without any
      division by zero: the vertical pan becomes minus half the scaled
      height, truncated toward zero. */
  lemma CenterInEmptyView(s: ViewState)
    requires s.view.Height() == 0 && s.imgH >= 0 && s.zoom >= 0.0
    ensures Center(s).panY == -TruncDiv2(ScaledSize(s.imgH, s.zoom))
    ensures Center(s).panY <= 0
  {
    TruncDiv2Odd(ScaledSize(s.imgH, s.zoom));
  }

  /** Centring twice is centring once. */
  lemma CenterIdempotent(s: ViewState)
    ensures Center(Center(s)) == Center(s)
  {
  }

  /** Resizing twice to the same rectangle is resizing once. */
  lemma ResizeIdempotent(s: ViewState, client: Rect)
    ensures Resize(Resize(s, client), client) == Resize(s, client)
  {
  }

  /** A successful load forgets the previous image, zoom and pan: two states
      with the same view and drag state end up identical. */
  lemma LoadForgetsHistory(s1: ViewState, s2: ViewState, w: int, h: int)
    requires s1.view == s2.view && s1.drag == s2.drag && s1.last == s2.last
    ensures Load(s1, true, w, h) == Load(s2, true, w, h)
  {
  }

  /** Any run of messages from a state with the zoom in range keeps it in
      range; in particular every state reachable from startup has it. */
  lemma {:induction false} RunKeepsZoomInRange(s: ViewState, ms: seq<Msg>)
    requires ZoomInRange(s.zoom)
    ensures ZoomInRange(Run(s, ms).zoom)
    decreases |ms|
  {
    if ms != [] {
      RunKeepsZoomInRange(Step(s, ms[0]), ms[1..]);
    }
  }

  /** After a run of messages an image is loaded exactly when one was before
      the run or some message in it loaded one. */
  lemma {:induction false} RunHasImageIffLoaded(s: ViewState, ms: seq<Msg>)
    ensures Run(s, ms).hasImage <==> s.hasImage || exists i :: 0 <= i < |ms| && LoadsImage(ms[i])
    decreases |ms|
  {
    if ms != [] {
      RunHasImageIffLoaded(Step(s, ms[0]), ms[1..]);
      if exists i :: 0 <= i < |ms| && LoadsImage(ms[i]) {
        var i :| 0 <= i < |ms| && LoadsImage(ms[i]);
        if i > 0 {
          assert LoadsImage(ms[1..][i - 1]);
        }
      }
      if exists j :: 0 <= j < |ms| - 1 && LoadsImage(ms[1..][j]) {
        var j :| 0 <= j < |ms| - 1 && LoadsImage(ms[1..][j]);
        assert LoadsImage(ms[j + 1]);
      }
    }
  }

  /** From startup, an image is displayed exactly when some message loaded
      one, and the zoom is always clamped. */
  lemma ReachableStates(ms: seq<Msg>)
    ensures Run(Initial(), ms).hasImage <==> exists i :: 0 <= i < |ms| && LoadsImage(ms[i])
    ensures ZoomInRange(Run(Initial(), ms).zoom)
  {
    RunHasImageIffLoaded(Initial(), ms);
    RunKeepsZoomInRange(Initial(), ms);
  }
}
