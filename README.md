# Image canvas: a verified model

This project models the interaction core of Image Navigator, a small desktop
tool for reading image-pixel coordinates and marking points on an image. The
core is the `ImageCanvas` view of `canvas.py`. Without its Qt drawing, it is a
state machine over:

- the loaded image, abstracted to its pixel width and height;
- the ordered list of point markers, each an `(x, y)` image pixel;
- the logical zoom value, bounded by `MIN_ZOOM = 0.05` and `MAX_ZOOM = 50.0`, stepped by `ZOOM_FACTOR = 1.15`;
- the panning flag, the pan-start view position and the two scroll offsets;
- whether the cursor coordinate overlay is visible.

Its operations are: loading an image, clearing the points, clearing
everything, reading the points, and the mouse handlers (press, move, release,
double-click, wheel, leave). Each handler is a method of the Dafny class
`Canvas.ImageCanvas`. A handler receives the pointer's view position and the
scene position that Qt's `mapToScene` gives for it. Signals emitted to the host
(`coord_changed`, `point_added`, `points_cleared`) are returned as an
`Option<Signal>` out-parameter.

Modules:

- `Wrappers` (wrappers.dfy): `Option`.
- `Geometry` (geometry.dfy): Python's `int()` on a float, which truncates toward zero (`Trunc`). Also the pixel under a scene position (`PixelUnder`).
- `Viewport` (viewport.dfy): the guarded zoom step, the scroll arithmetic of a pan move, and lemmas about sequences of wheel events and pan drags.
- `Canvas` (canvas.dfy): the `ImageCanvas` class. Its invariant `Valid()` says four things:
  - the image flag agrees with the image;
  - the zoom is within bounds;
  - every marker lies on the current image, so there are no markers without an image;
  - the overlay is only visible with an image loaded.
  Every handler preserves `Valid()`.
- `Scenarios` (scenarios.dfy): client runs of the class that show what a host can conclude from the contracts.

Behaviour worth knowing, all taken from the code:

- Truncation goes toward zero. A scene coordinate in (-1, 0) becomes pixel 0 and passes the bounds test. The scene positions accepted as "on the image" are therefore the open rectangle (-1, W) x (-1, H).
- A zoom step that would leave [0.05, 50.0] is rejected and the zoom is kept; it is never clamped. A wheel delta of 0 counts as zoom-out, because only a positive delta zooms in. From 1.0, exactly 27 zoom-in steps or 21 zoom-out steps are accepted.
- Each pan move scrolls by minus the pointer delta truncated toward zero. Sub-pixel motion is therefore dropped move by move rather than accumulated.
- A release ends panning whichever button is released. A left press that is not a pan press still marks a point while panning.

`canvas.py` defines no input modes, undo, drag-and-drop or fit command,
although `main.py` imports `Mode`, calls `toggle_mode` and `fit_view`, and
connects the `point_undone`, `image_dropped` and `mode_changed` signals
(main.py:33, :159-162, :294, :301). None of these is modelled, because
`canvas.py` does not contain them.

## Model

| member | source | states |
|---|---|---|
| `Geometry.Trunc` | canvas.py:232-233 | `int()` of a float truncates toward zero: the result is the integer at most one step from the input toward zero, non-negative for non-negative input |
| `Geometry.PixelUnder` | canvas.py:231-236 | a scene position is over an image pixel exactly when an image is loaded and the position lies in (-1, W) x (-1, H); that pixel is the truncated position and passes the `[0,W) x [0,H)` test |
| `Geometry.SliverLeftOfImage` | canvas.py:259-264 | a press less than one pixel left of the image lands on column 0 of the image |
| `Geometry.TruncIsNotFloor` | canvas.py:260-261 | on negative non-integers the conversion is one above the floor |
| `Viewport.NextZoom` | canvas.py:291-299 | one wheel step either takes the scaled zoom, which is then within bounds, or keeps the old zoom, and only when the scaled value would leave bounds (no clamping); a positive delta never lowers the zoom and any other delta never raises it; bounds are preserved |
| `Viewport.AfterWheels` | canvas.py:286-299 | after any sequence of wheel events the zoom stays within [MIN_ZOOM, MAX_ZOOM] |
| `Viewport.ZoomLimits` | canvas.py:33-35 | 1.15^27 <= 50 < 1.15^28 and 1.15^-22 < 0.05 <= 1.15^-21 |
| `Viewport.ZoomInFromOne` | canvas.py:291-298 | n zoom-in events from 1.0 give 1.15^min(n, 27): every step is accepted until the next one would pass MAX_ZOOM, then every further step is rejected |
| `Viewport.ZoomOutFromOne` | canvas.py:293-298 | n zoom-out events from 1.0 give (1/1.15)^min(n, 21) |
| `Viewport.PanScroll` | canvas.py:217-224 | a pan move moves the scroll offset against the pointer, never past the pointer delta and short of it by less than one pixel |
| `Viewport.WholePixelDrag` | canvas.py:215-225 | with whole-pixel pointer positions, a drag scrolls by exactly minus the pointer's total displacement |
| `Viewport.SubPixelDragsDoNotScroll` | canvas.py:215-225 | a drag in which every single move is less than one pixel leaves the scroll offset unchanged, however far the pointer travels in total |
| `Viewport.SubPixelDragIsLost` | canvas.py:217-224 | a drag of two pixels in half-pixel moves does not scroll at all |
| `Canvas.CoordsAppend` | canvas.py:206-208 | appending a marker appends its coordinates to the reading, so points are read in insertion order |
| `Canvas.ImageCanvas.constructor` | canvas.py:154-161 | a new canvas has no image and no markers, zoom 1.0, is not panning, has its pan start at the origin and the overlay hidden |
| `Canvas.ImageCanvas.GetPoints` | canvas.py:206-208 | one entry per marker, the i-th being the i-th marker's `(x, y)`, each on the loaded image; empty when no image is loaded |
| `Canvas.ImageCanvas.HasImage` | canvas.py:210-211 | the image flag is true exactly when an image is loaded |
| `Canvas.ImageCanvas.LoadImage` | canvas.py:165-182 | returns whether decoding succeeded; on failure no state changes; on success the new image is loaded with no markers, zoom 1.0 and the overlay hidden |
| `Canvas.ImageCanvas.ClearPoints` | canvas.py:184-189 | empties the markers and emits `points_cleared`; image, zoom, pan state, scroll and overlay unchanged |
| `Canvas.ImageCanvas.ClearAll` | canvas.py:191-204 | hides the overlay, empties the markers, drops the image and resets zoom to 1.0 |
| `Canvas.ImageCanvas.MouseMove` | canvas.py:215-242 | while panning: the pan start becomes the pointer position and each scroll offset takes one `PanScroll` step, nothing else changes; otherwise the overlay is shown and `coord_changed` emitted with the truncated pixel exactly when it is on the image, else the overlay is hidden |
| `Canvas.ImageCanvas.MousePress` | canvas.py:244-269 | a middle or Ctrl+left press sets panning and records the position, adding nothing; a plain left press appends exactly the truncated pixel, and emits `point_added`, exactly when it is on a loaded image; every other press leaves the markers alone |
| `Canvas.ImageCanvas.MouseRelease` | canvas.py:271-276 | a release clears the panning flag and changes nothing else |
| `Canvas.ImageCanvas.MouseDoubleClick` | canvas.py:278-284 | a left double-click with an image resets zoom to 1.0; any other double-click changes nothing |
| `Canvas.ImageCanvas.Wheel` | canvas.py:286-299 | with an image the zoom takes one `NextZoom` step; with no image nothing changes |
| `Canvas.ImageCanvas.Leave` | canvas.py:301-303 | the overlay is hidden and nothing else changes |
| `Scenarios.ClickRecordsPoint` | canvas.py:259-266 | on an 800x600 image a click over (100.4, 50.9) records exactly [(100, 50)] |
| `Scenarios.FailedLoadKeepsState` | canvas.py:167-169 | a failed load after two clicks and a zoom-in returns false and keeps the 800x600 image, both points and zoom 1.15 |
| `Scenarios.ClickLeftOfImage` | canvas.py:260-266 | a click at scene x = -0.5 records a point in column 0; one at x = -1.0 records nothing |
| `Scenarios.CtrlDragPans` | canvas.py:246-253 | a Ctrl+left drag adds no point, shifts the scroll offsets against the pointer and ends on release |

## Left out

- Drawing: ellipse, text and rectangle items, their colours, z-order and label offsets, and cursor shapes. The overlay is reduced to whether it is visible, and a marker to its `(x, y)`.
- Qt's view transform (`mapToScene`, `fitInView`, `resetTransform`, `scale`) is not part of this model. Scene positions are inputs. A fit is modelled only as the reset of the logical zoom.
- Canvas.ImageCanvas.LoadImage: says nothing about the scroll offsets after a successful load, because Qt's fitting transform repositions them.
- Canvas.ImageCanvas.ClearAll: says nothing about the scroll offsets, because `resetTransform` repositions them.
- Canvas.ImageCanvas.MouseDoubleClick: says nothing about the scroll offsets after a fit, for the same reason.
- Canvas.ImageCanvas.Wheel: says nothing about the scroll offsets after an accepted zoom step, because `scale` about the mouse anchor repositions them.
- Scroll-bar range clamping: the scroll offsets are unbounded integers.
- Zoom is an exact real. The source's repeated floating-point multiplication and its rounding are not modelled.
- Pointer (view) and scene positions are exact reals. The rounding of the double-precision subtraction of the pan delta is not modelled, so where that rounding crosses a whole number the source can scroll one pixel more or less than `PanScroll` gives.
- Image decoding and file I/O: the outcome of `QPixmap(path)` is an input, `None` for a null pixmap, otherwise the image's positive width and height.
- Delegation to the base class's Qt handlers (`super().…Event`) has no effect on the modelled state and is not modelled.
- `main.py` is not part of this model: the window, toolbar, dialogs, styles and startup.
