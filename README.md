# XP Fast Photo Viewer: interaction state

This project models the interaction core of a minimal Win32 image viewer
(`viewer_xp.cpp`). It covers the process-wide viewport state and the
handlers that change it:

- which image is loaded and its size;
- the zoom factor;
- the pan offset;
- the drag flag and the last pointer position;
- the client rectangle.

The handlers are `CenterImage`, the state updates `LoadImage` makes after decoding, and the
`WM_SIZE`, `WM_MOUSEWHEEL`, `WM_LBUTTONDOWN`, `WM_LBUTTONUP` and
`WM_MOUSEMOVE` branches of `WndProc`.

The model has two layers, a pure one (`viewport.dfy`) and a stateful one
(`viewer.dfy`), and two supporting modules (`viewport_properties.dfy`,
`cpp_arith.dfy`):

- `viewport.dfy` (module `Viewport`): the state as a value (`ViewState`), one
  function per handler giving the new state, and the message datatype `Msg`
  with `Step`, the effect of `WndProc` on the state.
- `viewer.dfy` (module `ViewerXp`): class `Viewer`, whose fields are the
  globals and whose methods update them statement by statement as the C++
  does. Each method's postcondition equates the new `State()` with the
  `Viewport` function applied to the old one.
- `viewport_properties.dfy` (module `ViewportProperties`): lemmas about runs
  of messages (zoom bounds, wheel saturation, drag telescoping, image
  presence).
- `cpp_arith.dfy` (module `CppArith`): C++ truncating division by 2 and
  truncating double-to-int conversion. Dafny's `/` is Euclidean and `.Floor`
  rounds down, so both must be written out.

The zoom is an exact `real`. The scaled size `int(w * zoom)` is the
truncation of `w as real * zoom`. The coordinates, the wheel delta, the
client rectangle and the decoder's outcome are parameters of the handlers.

Two behaviours of the code are easy to miss:

- `CenterImage` has no "no image loaded" guard. The resize handler guards
  its call, and `LoadImage` calls it only after storing the image.
- A zero-size client area is not special-cased. The divisor is the constant
  2, so nothing can fault. The pan becomes minus half the scaled size,
  truncated toward zero, rather than zero (`CenterInEmptyView`).

The window class is registered without the `CS_DBLCLKS` style
(viewer_xp.cpp:139-143), and Win32 sends `WM_LBUTTONDBLCLK` only to windows
whose class has it. The double-click branch (viewer_xp.cpp:119-129) may
therefore never run in the program as written. The model lets an
`LButtonDblClk` message arrive; `ReachableStates` and `RunHasImageIffLoaded`
describe what follows if one does. The window-class style is not modelled.

## Model

| member | source | states |
|---|---|---|
| CppArith.TruncDiv2 | viewer_xp.cpp:28-29 | C++ `/ 2`: the remainder is 0 or 1 for a non-negative dividend and 0 or -1 for a negative one, which fixes the quotient |
| CppArith.Truncate | viewer_xp.cpp:28-29 | C++ `int(double)`: the result has the sign of the argument and lies within one of it on the side of zero |
| CppArith.TruncDiv2Odd | viewer_xp.cpp:28-29 | truncating halving is symmetric around zero, unlike Dafny's Euclidean `/` (`-3/2` is `-1`, not `-2`) |
| Viewport.Initial | viewer_xp.cpp:17-23 | the startup state has no image, no drag, zoom 1.0 (in range) and pan (0, 0) |
| Viewport.ScaledSize | viewer_xp.cpp:28-29 | `int(size * zoom)` is the floor of the product for non-negative operands, and is the size itself at zoom 1.0 |
| Viewport.CenteredOffset | viewer_xp.cpp:25-30 | the far margin equals the near one or is one larger when the image fits, or one smaller when it overflows |
| Viewport.Center | viewer_xp.cpp:25-30 | panX and panY become the centred offsets for the view's width and height; no other field changes |
| Viewport.Load | viewer_xp.cpp:32-46 | a failed decode changes nothing; a successful one stores the size, sets zoom 1.0, centres at natural size in the current view and sets hasImage, keeping drag state and view |
| Viewport.Resize | viewer_xp.cpp:75-78 | the view becomes the new rectangle; the pan is recentred if an image is loaded and kept otherwise |
| Viewport.WheelFactor | viewer_xp.cpp:81 | a positive delta gives 1.25; zero or a negative delta gives 0.8 |
| Viewport.ClampZoom | viewer_xp.cpp:82-83 | the result is in [0.1, 8.0], equals the input when that is in range, and is the bound it crossed otherwise |
| Viewport.Wheel | viewer_xp.cpp:80-85 | the zoom ends in [0.1, 8.0] from any start; it is the clamped product; in range, zooming in never shrinks and zooming out never grows it; nothing else changes |
| Viewport.Press | viewer_xp.cpp:87-92 | drag is set and the pointer recorded; zoom and pan unchanged; nothing else changes |
| Viewport.Release | viewer_xp.cpp:94-97 | drag is cleared; nothing else changes |
| Viewport.Move | viewer_xp.cpp:99-109 | while dragging the pan moves by the pointer's displacement from the last position, which becomes the new one; otherwise nothing changes |
| Viewport.Step | viewer_xp.cpp:73-136 | no message takes the zoom out of range; an image is loaded after a message exactly when one was before or the message was a double click whose file was picked and decoded |
| ViewportProperties.WheelsKeepZoomInRange | viewer_xp.cpp:80-85 | any run of wheel notches leaves the zoom in [0.1, 8.0] and changes only the zoom |
| ViewportProperties.ZoomInSaturates | viewer_xp.cpp:81-83 | repeated zoom-in at 8.0 stays at 8.0 with the state unchanged |
| ViewportProperties.ZoomOutSaturates | viewer_xp.cpp:81-83 | repeated zoom-out at 0.1 stays at 0.1 with the state unchanged |
| ViewportProperties.DragTelescopes | viewer_xp.cpp:99-108 | while dragging, a path of moves pans by the final position minus the starting one, records the final position, and changes nothing else |
| ViewportProperties.IdleMovesChangeNothing | viewer_xp.cpp:99-100 | without a drag, no path of moves changes the state |
| ViewportProperties.DragSession | viewer_xp.cpp:87-108 | button-down at a point followed by moves pans by the final position minus that point, with the zoom unchanged |
| ViewportProperties.MovesAfterReleaseChangeNothing | viewer_xp.cpp:94-100 | after button-up, later moves have no effect |
| ViewportProperties.DragExample | viewer_xp.cpp:87-108 | down at (10,10), move to (15,12) pans by (5,2); after button-up a move changes nothing |
| ViewportProperties.CenterExample | viewer_xp.cpp:25-30 | 800x600 view, 400x300 image: zoom 1.0 gives (200,150); zoom 2.0 gives scaled size 800x600 and pan (0,0) |
| ViewportProperties.ScaledAtDoubleZoom | viewer_xp.cpp:28-29 | at zoom 2.0 the scaled size is twice the size |
| ViewportProperties.CenterOverflowExample | viewer_xp.cpp:28 | an image 3 pixels wider than the view is placed at -1 (truncation toward zero) |
| ViewportProperties.CenterInEmptyView | viewer_xp.cpp:25-30 | a zero-height view gives panY = -(scaled height / 2), truncated, and never positive |
| ViewportProperties.CenterIdempotent | viewer_xp.cpp:25-30 | centring twice equals centring once |
| ViewportProperties.ResizeIdempotent | viewer_xp.cpp:75-78 | resizing twice to the same rectangle equals resizing once |
| ViewportProperties.LoadForgetsHistory | viewer_xp.cpp:37-44 | after a successful load the state does not depend on the previous image, zoom or pan |
| ViewportProperties.RunKeepsZoomInRange | viewer_xp.cpp:73-136 | any sequence of messages from a zoom in range keeps it in range |
| ViewportProperties.RunHasImageIffLoaded | viewer_xp.cpp:73-136 | after a run, an image is loaded exactly when one was before or some message in the run loaded one |
| ViewportProperties.ReachableStates | viewer_xp.cpp:17-23 | from startup, the zoom is always in range and an image is shown exactly when some message loaded one |
| ViewerXp.Viewer.constructor | viewer_xp.cpp:17-23 | the fields start at the statics' initial values, with the zoom in range |
| ViewerXp.Viewer.CenterImage | viewer_xp.cpp:25-30 | the new state is `Center` of the old; pan is the centred offset |
| ViewerXp.Viewer.LoadImage | viewer_xp.cpp:32-46 | returns whether the decode succeeded; the new state is `Load` of the old; a failure leaves the object unchanged |
| ViewerXp.Viewer.OnSize | viewer_xp.cpp:75-78 | the new state is `Resize` of the old |
| ViewerXp.Viewer.OnMouseWheel | viewer_xp.cpp:80-85 | the zoom becomes the clamped product; the new state is `Wheel` of the old; the zoom stays in range |
| ViewerXp.Viewer.OnLButtonDown | viewer_xp.cpp:87-92 | the new state is `Press` of the old |
| ViewerXp.Viewer.OnLButtonUp | viewer_xp.cpp:94-97 | the new state is `Release` of the old |
| ViewerXp.Viewer.OnMouseMove | viewer_xp.cpp:99-109 | while dragging the pan moves by the displacement; otherwise the object is unchanged; the new state is `Move` of the old |
| ViewerXp.Viewer.WndProc | viewer_xp.cpp:73-136 | the new state is `Step` of the old; the zoom stays in range |

## Left out

- Painting (`WM_PAINT`, `DrawImage`, `StretchDIBits`, `FillRect`): GDI calls with no checkable result. They only read the state, so `Paint` is a no-op in `Step`. The scaled size they use is `ScaledSize`.
- The pixel buffer and its copy from the decoder: foreign memory. `LoadImage` takes only the decoder's success flag and dimensions.
- The open-file dialog and the decoder (`GetOpenFileNameA`, `stbi_load`, `stbi_image_free`): foreign calls. Their outcomes are the parameters of `LButtonDblClk` and `LoadImage`.
- `SetCapture`, `ReleaseCapture`, `InvalidateRect`, `PostQuitMessage`, `DefWindowProc`: OS side effects that do not touch the modelled state.
- Window registration, creation and the message loop (`WinMain`): OS plumbing.
- Whether Windows delivers `WM_LBUTTONDBLCLK` at all: it depends on the window-class style set in `WinMain` (no `CS_DBLCLKS`), which is OS behaviour. `Msg.LButtonDblClk` is assumed to be able to arrive.
- Extracting the wheel delta and the pointer coordinates from `wParam`/`lParam` (16-bit signed fields): done by Windows header macros. The handlers take the decoded values.
- ViewerXp.Viewer.OnMouseMove: pan and coordinates are unbounded integers, so 32-bit `int` overflow of the pan is not modelled.
- Viewport.ScaledSize: `int(w * zoom)` is modelled for values that fit an `int`; the out-of-range conversion is undefined in C++ and not modelled.
- Viewport.Wheel: the zoom is an exact real. IEEE-754 rounding of the double (0.8 is not exactly representable) is not modelled. The clamp bounds hold either way.
