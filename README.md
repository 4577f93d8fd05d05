# webgl-playground camera and matrix core, in Dafny

This project models the part of the WebGL playground that is not GPU
plumbing. Every proof is over exact `real` numbers.

- **`m3.dfy`, `m3_inverse.dfy` (module `M3`, module `M3Inverse`).** The 3×3
  affine matrix library: identity, the elementary translation, rotation,
  scaling and projection matrices, the left-composing
  `translate`/`rotate`/`scale`, `multiply`, `invert` (which returns `null`
  on a zero determinant) and `transformPoint`.
  - A matrix is the nine entries `m0..m8` of the library's flat array.
  - `Multiply(a, b)` is the row-major product B·A, as in the library.
  - A point is the row vector (x, y, 1) times the matrix.
  - A rotation is given by its cosine/sine pair; `UnitAngle` requires
    cos² + sin² = 1.
- **`render_case.dfy` (module `Camera`).**
  - The camera state, the matrix built from it, and the view-projection
    matrix (projection times the inverse camera matrix).
  - The drag session and the wheel zoom, as pure specification functions.
  - The class `RenderCase`: the base class of every demo, whose event
    handlers overwrite its camera and drag-session fields. Vue's deep
    watcher is a `watching` flag plus `OnStateChange`. A pending animation
    frame is a `frameArmed` flag plus `Tick`. Calls of `render` are recorded
    in `renders`, and teardown callbacks in `effectsRun`.
- **`dom_controls.dfy` (module `DomControls`).** The gesture dispatcher
  `useDomControls`, as the class `Controls`:
  - a `dragging` flag, a start point and four listener lists;
  - a trace `calls` of every listener invocation;
  - the pointer→clip-space normalisation.
  - Listeners are identified by number. The element's rectangle and size
    are handler arguments.
- **`webgl.dfy` (module `WebGl`).** `resizeCanvasToDisplaySize` on a
  `Canvas` object. The `| 0` truncation, including its 32-bit wrap-around,
  is written out.
- **`two_dem_transform.dfy`, `random_rects.dfy`.** The two demos' own
  arithmetic:
  - the F geometry and the five-step matrix chain of the transforms demo;
  - the rectangle → two-triangle encoding and the 25-rectangle loop of the
    random-rectangles demo, with the random numbers as inputs.
  - GL calls are reduced to the values they would receive.

`wrappers.dfy` holds the `Option` type that stands for `null`/`undefined`.

## Model

| member | source | states |
|---|---|---|
| M3.MultiplyIdentity | src/lib/m3.ts:13-15 | `multiply(identity(), m)` and `multiply(m, identity())` are both `m` |
| M3.MultiplyAssociative | src/lib/m3.ts:51-82 | `multiply` is associative |
| M3.MultiplyKeepsAffine | src/lib/m3.ts:51-82 | a product of affine matrices (third column 0, 0, 1) is affine |
| M3.TransformIdentity | src/lib/m3.ts:120-130 | the identity leaves every point where it is |
| M3.TransformTranslation | src/lib/m3.ts:17-19 | `translation(tx, ty)` moves a point by (tx, ty) |
| M3.TransformScaling | src/lib/m3.ts:36-38 | `scaling(sx, sy)` multiplies x by sx and y by sy |
| M3.TransformRotation | src/lib/m3.ts:25-30 | `rotation` turns a point about the origin by minus the angle whose cosine and sine it was given: clockwise when y points up, counter-clockwise on the y-down pixel grid |
| M3.TransformMultiply | src/lib/m3.ts:51-82 | transforming by `multiply(a, b)` is transforming by `b` and then by `a`, when `b` is affine |
| M3.TranslateMovesPoints | src/lib/m3.ts:21-23 | `translate(mat, tx, ty)` moves every image point of `mat` by (tx, ty) |
| M3.RotateTurnsPoints | src/lib/m3.ts:32-34 | `rotate(mat, a)` turns every image point of `mat` about the origin |
| M3.ScaleStretchesPoints | src/lib/m3.ts:40-42 | `scale(mat, sx, sy)` stretches every image point of `mat` by (sx, sy) |
| M3.ProjectionCorners | src/lib/m3.ts:44-49 | pixel (0, 0) maps to clip (-1, 1) and pixel (w, h) to clip (1, -1): the y axis flips |
| M3.DetSarrus | src/lib/m3.ts:95-100 | the first-row cofactor expansion the source computes is the determinant given by the rule of Sarrus |
| M3.InvertNoneIff | src/lib/m3.ts:95-104 | `invert` returns null exactly when the cofactor expansion is 0; there is no tolerance |
| M3.AffineDet | src/lib/m3.ts:95-100 | for an affine matrix the determinant is that of its upper-left 2×2 block |
| M3.AffineDetMultiply | src/lib/m3.ts:51-82 | the determinant of a product of affine matrices is the product of the determinants |
| M3.MultiplyInvertible | src/lib/m3.ts:84-104 | a product of invertible affine matrices is invertible |
| M3.ProjectionDet | src/lib/m3.ts:47-49 | the projection's determinant is (2/w)·(-2/h), never 0 |
| M3.TranslationDet | src/lib/m3.ts:17-19 | a translation has determinant 1 |
| M3.RotationDet | src/lib/m3.ts:25-30 | a rotation has determinant 1 |
| M3.ScalingDet | src/lib/m3.ts:36-38 | `scaling(sx, sy)` has determinant sx·sy |
| M3.ScalingInvertible | src/lib/m3.ts:36-38 | a scaling can be inverted exactly when neither factor is 0 |
| M3Inverse.InvertIsInverse | src/lib/m3.ts:84-118 | when `invert(m)` is not null, `multiply(m, invert(m))` and `multiply(invert(m), m)` are the identity |
| M3Inverse.InvertRight | src/lib/m3.ts:105-117 | `multiply(m, invert(m))` is the identity |
| M3Inverse.InvertLeft | src/lib/m3.ts:105-117 | `multiply(invert(m), m)` is the identity |
| M3Inverse.InvertRoundTrip | src/lib/m3.ts:84-130 | an affine invertible matrix followed by its inverse (or the inverse followed by it) returns every point |
| M3.InvertKeepsAffine | src/lib/m3.ts:105-117 | the inverse of an affine matrix is affine |
| M3Inverse.RightInverseDet | src/lib/m3.ts:51-82 | if `multiply(a, b)` is the identity for affine a and b, their determinants multiply to 1 |
| M3Inverse.InverseDetNonzero | src/lib/m3.ts:84-118 | the inverse of an affine matrix can itself be inverted |
| M3Inverse.InvertUnique | src/lib/m3.ts:84-118 | an affine matrix with an affine right inverse `b` is inverted to exactly `b`: `invert` finds the only inverse there is |
| Camera.InitialCamera | src/cases/RenderCase.ts:33-36 | the camera starts at x = 0, y = 0, zoom 0.5, unrotated |
| Camera.CameraMatrixAffine | src/cases/RenderCase.ts:40-51 | the camera matrix is affine |
| Camera.CameraMatrixDet | src/cases/RenderCase.ts:40-51 | the camera matrix has the determinant of its zoom scaling: translation and rotation keep areas |
| Camera.CameraInvertible | src/cases/RenderCase.ts:57-58 | the camera matrix can be inverted exactly when the zoom is not 0, so the `!` is safe only then |
| Camera.ViewProjectionUndoesCamera | src/cases/RenderCase.ts:39-59 | the view-projection matrix takes a point placed by the camera to where the bare projection takes the point: the view matrix undoes the camera |
| Camera.ViewProjectionAffine | src/cases/RenderCase.ts:53-58 | the view-projection matrix is affine |
| Camera.ViewProjectionInvertible | src/cases/RenderCase.ts:84 | `invert(vpMatrix)` at the start of a drag is never null while the zoom and the canvas size are nonzero |
| Camera.ZoomAccumulates | src/cases/RenderCase.ts:75-77 | successive zoom steps add their deltas to the zoom and leave x, y and rotation unchanged |
| Camera.ThreeNotches | src/cases/RenderCase.ts:75-77 | three steps of 0.25 add 0.75 |
| Camera.Capture | src/cases/RenderCase.ts:83-90 | a session keeps a copy of the camera, a two-sided inverse of the view-projection matrix, and the start point mapped through that inverse |
| Camera.DragDisplacement | src/cases/RenderCase.ts:92-100 | the pan equals the linear part of the session inverse applied to (start − current); the translation row of the inverse cancels |
| Camera.DragBackToStart | src/cases/RenderCase.ts:83-100 | returning the mouse to the start point restores the session's start x and y |
| Camera.DragForgetsEarlierMoves | src/cases/RenderCase.ts:92-100 | within a session the camera after a move depends only on the current point, not on earlier moves |
| Camera.CameraPlaces | src/cases/RenderCase.ts:40-51 | the camera matrix adds (x, y) to a point first, then turns it, then scales it by the zoom |
| Camera.ProjectionOfPixel | src/lib/m3.ts:44-49 | the projection sends the canvas pixel of a clip-space point back to that point |
| Camera.WorldUnderIsDrawnThere | src/cases/RenderCase.ts:39-59 | the world point the camera shows at a clip-space point is drawn by the view-projection matrix exactly there |
| Camera.WorldUnderUnrotated | src/cases/RenderCase.ts:40-51 | without rotation, the world point under a clip-space point is the zoom times its pixel shifted by (x, y) |
| Camera.SessionReadsWorldUnder | src/cases/RenderCase.ts:83-95 | `dragStartPoint` is the world point under the start of the drag, and the session's inverse reads every clip-space point as the world point under it when the drag began |
| Camera.DragToReadsWorld | src/cases/RenderCase.ts:83-100 | a move pans the start position by the grabbed world point minus the world point under the cursor, both as seen at the start |
| Camera.DragMissesCursorOffUnitZoom | src/cases/RenderCase.ts:92-100 | as written, at a zoom other than 0 and 1 and no rotation, a horizontal drag leaves a world point under the cursor that is not the grabbed one |
| Camera.DragFollowingCursorKeepsGrab | src/cases/RenderCase.ts:92-100 | panning by the mouse travel in canvas pixels keeps the grabbed world point under the cursor, at every zoom and rotation |
| Camera.DragAtUnitZoomFollowsCursor | src/cases/RenderCase.ts:83-100 | at zoom 1 without rotation the source's pan is exactly the pan that follows the cursor |
| Camera.TwoNotchesOutLoseTheInverse | src/cases/RenderCase.ts:57-58 | two zoom steps of -0.25 from the initial camera reach zoom 0, where `invert` of the camera matrix returns null |
| Camera.RenderCase.constructor | src/cases/RenderCase.ts:30-62 | initial camera and no drag session. Continuous mode renders once, arms a frame and registers no effect. Reactive mode renders once through the immediate watcher and registers exactly the unwatch effect |
| Camera.RenderCase.OnStateChange | src/cases/RenderCase.ts:114-120 | a state change renders the current camera exactly when the watcher is active |
| Camera.RenderCase.Tick | src/cases/RenderCase.ts:125-134 | a frame renders and re-arms while mounted; after unmounting it does neither |
| Camera.RenderCase.Unmount | src/cases/RenderCase.ts:68-73 | sets `unmounted` and runs every registered effect in registration order; the watcher is stopped afterwards |
| Camera.RenderCase.OnZoom | src/cases/RenderCase.ts:75-77 | adds the delta to the zoom and changes nothing else |
| Camera.RenderCase.OnDrag | src/cases/RenderCase.ts:79-101 | opens a session (inverse, camera copy, mapped start point) only when none is open. It then sets x and y by the session formula and leaves zoom, rotation and everything else unchanged |
| Camera.RenderCase.OnDragEnd | src/cases/RenderCase.ts:103-106 | closes the session (matrix and camera) and keeps the start point and the camera |
| DomControls.ClipSpaceEdges | src/composables/use-dom-controls.ts:74-83 | the left and right edges map to x = -1 and 1, the top and bottom edges to y = 1 and -1 |
| DomControls.ClipSpaceRoundTrip | src/composables/use-dom-controls.ts:74-83 | the client position can be recovered from the clip-space position, so the mapping loses nothing |
| DomControls.WheelZoomDelta | src/composables/use-dom-controls.ts:37-38 | a wheel event asks for +0.25, -0.25 or 0 by the sign of deltaY alone |
| DomControls.ZoomCallsAppend | src/composables/use-dom-controls.ts:34-43 | notifying two lists one after the other is notifying their concatenation: listeners are called in registration order |
| DomControls.TranslateCallsAppend | src/composables/use-dom-controls.ts:62-72 | the same law for translate notifications |
| DomControls.TranslateEndCallsAppend | src/composables/use-dom-controls.ts:50-60 | the same law for translate-end notifications |
| DomControls.ZoomCallsReachRegistered | src/composables/use-dom-controls.ts:34-43 | a zoom notification calls a listener with its step exactly when that listener is registered |
| DomControls.TranslateCallsReachRegistered | src/composables/use-dom-controls.ts:62-72 | a translate notification calls a listener with its start and current points exactly when that listener is registered |
| DomControls.TranslateEndCallsReachRegistered | src/composables/use-dom-controls.ts:50-60 | a translate-end notification calls a listener exactly when it is registered |
| DomControls.Controls.constructor | src/composables/use-dom-controls.ts:4-14 | not dragging, start point (0, 0), all four listener lists empty |
| DomControls.Controls.OnWheel | src/composables/use-dom-controls.ts:34-43 | calls every zoom listener, in order, with the wheel's zoom step, and nothing else |
| DomControls.Controls.OnMouseDown | src/composables/use-dom-controls.ts:45-48 | starts dragging at the clip-space position of the pointer |
| DomControls.Controls.OnMouseUp | src/composables/use-dom-controls.ts:50-60 | does nothing when not dragging. Otherwise stops dragging, resets the start point to (0, 0) and calls every translate-end listener in order |
| DomControls.Controls.OnMouseMove | src/composables/use-dom-controls.ts:62-72 | does nothing when not dragging. Otherwise calls every translate listener in order with the start point and the current clip-space point |
| DomControls.Controls.On | src/composables/use-dom-controls.ts:85-110 | appends the listener to that event's list only |
| DomControls.Controls.Off | src/composables/use-dom-controls.ts:112-117 | empties all four listener lists |
| DomControls.RegisterThenWheel | src/composables/use-dom-controls.ts:34-110 | a zoom listener added with `on` is called by the next wheel event, after every listener registered before it |
| WebGl.ToInt32 | src/lib/webgl.ts:58-59 | the truncating `or`-with-zero conversion lies in the signed 32-bit range, agrees with truncation inside it and differs from it by a multiple of 2^32 |
| WebGl.Truncate | src/lib/webgl.ts:58-59 | truncation toward zero stays within 1 of its argument, on the side of 0 |
| WebGl.EffectiveMultiplier | src/lib/webgl.ts:57 | an absent or zero multiplier becomes 1; any other is kept |
| WebGl.Resized | src/lib/webgl.ts:56-66 | the new size is the target size, and `changed` holds exactly when the old size differs from it |
| WebGl.ResizeIdempotent | src/lib/webgl.ts:56-66 | a second call with the same client size and multiplier returns false and changes nothing |
| WebGl.UnitMultiplierKeepsClientSize | src/lib/webgl.ts:57-59 | with multiplier 1 (or falsy) the target is the client size itself |
| WebGl.ResizeCanvasToDisplaySize | src/lib/webgl.ts:56-66 | returns true exactly when a dimension differs from its target and then sets both. Otherwise the canvas is untouched |
| TwoDemTransform.InitialState | src/cases/TwoDemTransform.ts:15-24 | the case starts untranslated, unrotated, at scale 1 |
| TwoDemTransform.GeometryMatchesDrawCount | src/cases/TwoDemTransform.ts:37-61 | the F geometry is 36 numbers, the 18 vertices each draw reads |
| TwoDemTransform.StepTransformsPoints | src/cases/TwoDemTransform.ts:115-118 | one loop turn applies scale, then rotation, then translation, then the previous matrix |
| TwoDemTransform.InitialStepIsIdentity | src/cases/TwoDemTransform.ts:109-118 | in the initial state a loop turn leaves the matrix unchanged |
| TwoDemTransform.InitialChainIsConstant | src/cases/TwoDemTransform.ts:109-118 | in the initial state any number of turns leaves the matrix unchanged |
| TwoDemTransform.Render | src/cases/TwoDemTransform.ts:109-128 | exactly 5 draws of 18 vertices. The k-th uploaded matrix is the projection after k loop turns |
| TwoDemTransform.InitialRenderUploadsProjection | src/cases/TwoDemTransform.ts:109-118 | in the initial state every uploaded matrix is the projection |
| TwoDemTransform.Mount | src/cases/TwoDemTransform.ts:15-24 | the demo passes `alwaysRerender = false` and its own initial state, so mounting starts from that state, renders once through the watcher, arms no frame and registers exactly the watcher's stop handle |
| RandomRects.SetRectangle | src/cases/RandomRects.ts:55-70 | 12 numbers, and every vertex is a corner of the rectangle |
| RandomRects.RectangleTriangles | src/cases/RandomRects.ts:68 | the two triangles share the diagonal (x1, y2)–(x2, y1) and between them use all four corners |
| RandomRects.Render | src/cases/RandomRects.ts:101-122 | exactly 25 rectangles, each uploaded by `setRectangle` from its own random values and drawn as 6 vertices |
| RandomRects.Mount | src/cases/RandomRects.ts:16-17 | the demo passes `alwaysRerender = false`, so mounting renders once through the watcher, arms no frame and registers exactly the watcher's stop handle |

## Left out

- GPU calls: shader and program creation, buffers, uniforms and `drawArrays`. Draws and uploads appear only as returned sequences.
- Vue reactivity: `reactive`, `computed` and the deep `watch` with its batching are replaced by `OnStateChange` and a recomputed `ViewProjection`. `requestAnimationFrame` is replaced by `Tick`. Coalescing of changes is not modelled.
- Floating point, `Math.cos`/`Math.sin` and the degree→radian conversion: all arithmetic is over exact reals, and angles are given by their cosine and sine.
- `Math.random` and `randomInt`: the chosen values are inputs of `RandomRects.Render`. src/lib/math.ts is not part of this model.
- DOM plumbing: `addEventListener`, `getBoundingClientRect`, `preventDefault` and the mount/unmount hooks. The rectangle and client size are handler arguments.
- Listener side effects: a listener is an identifier. What it does when called (for example `RenderCase.OnZoom`) is not composed with the dispatcher.
- `compile` and the abstract `render` of each case: `render` is recorded as the camera it received.
- The case-specific part of a case's state is not merged into `RenderCase`. The transforms demo's own state is `TwoDemTransform.InitialState`, and the random-rectangles demo has none.
- The zoom = 0 path: `invert` returns null there and the source passes it on to `multiply`. `ViewProjection` and `RenderCase.OnDrag` therefore require a nonzero zoom and canvas size (or an open session). `TwoNotchesOutLoseTheInverse` shows that two wheel notches from the initial camera reach it; the source does not clamp the zoom, and what should happen there is left open.
- Division by a zero canvas or element size, which gives infinities in the source, is excluded by preconditions (`Projection`, `ClipSpaceMousePosition`).
- `RenderCase.OnDrag` keeps the pan as the source writes it (`DragTo`). The pan that keeps the grabbed point under the cursor is `DragFollowingCursor`, stated under "Findings"; the class does not use it.
- `RenderCase.OnRotation` is an empty handler in the source and is an empty method here.
- WebGl.EffectiveMultiplier: `NaN`, `null`, `false` and `""` are falsy too; only an absent multiplier and 0 are modelled.
- WebGl.ToInt32: non-finite products (`Infinity`, `NaN` → 0) are not modelled.

## Findings

| source | as written | input that shows it | evidently intended | confidence | as-written member | corrected member |
|---|---|---|---|---|---|---|
| src/cases/RenderCase.ts:97-100 | the pan adds a difference of world points to `camera.x`/`camera.y`, but the camera matrix applies x and y before the rotation and the zoom (lines 40-51), so the pan is off by the zoom | initial camera (zoom 0.5), 2 × 2 canvas, drag from clip (0, 0) to (1, 0): world (0.5, 0.5) is grabbed and (0.75, 0.5) ends under the cursor | the grabbed world point stays under the cursor: pan by the mouse travel in canvas pixels | medium; not executed | Camera.DragMissesCursorOffUnitZoom | Camera.DragFollowingCursorKeepsGrab |
