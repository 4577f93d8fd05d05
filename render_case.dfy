/** The camera of the base render case: a position, a zoom and a rotation,
    the view-projection matrix derived from them, and the state machine that
    pans the camera while the mouse drags and zooms it on the wheel.

    The matrix math lives in the functions and lemmas of this module; the
    object whose fields the event handlers overwrite is the class
    `RenderCase`.  The canvas size is an argument wherever the source reads
    `gl.canvas.width` and `gl.canvas.height`. */
module Camera {
  import opened Wrappers
  import opened M3
  import opened M3Inverse

  /** `state.camera`; the rotation is the cosine and sine of its angle. */
  datatype CameraState = CameraState(x: real, y: real, zoom: real, rotation: UnitAngle)

  /** Every case starts at the origin, at half zoom, unrotated. */
  function InitialCamera(): (c: CameraState)
    ensures c.x == 0.0 && c.y == 0.0 && c.zoom == 0.5
    ensures c.rotation.cos == 1.0 && c.rotation.sin == 0.0
  {
    CameraState(0.0, 0.0, 0.5, Angle(1.0, 0.0))
  }

  /** The camera placed in the world: translate, then rotate, then scale,
      each composed onto the identity in that order. */
  function CameraMatrix(c: CameraState): Mat3
  {
    Scale(Rotate(Translate(Identity(), c.x, c.y), c.rotation), c.zoom, c.zoom)
  }

  lemma CameraMatrixAffine(c: CameraState)
    ensures IsAffine(CameraMatrix(c))
  {
    var t := Translate(Identity(), c.x, c.y);
    var r := Rotate(t, c.rotation);
    MultiplyKeepsAffine(Translation(c.x, c.y), Identity());
    MultiplyKeepsAffine(Rotation(c.rotation), t);
    MultiplyKeepsAffine(Scaling(c.zoom, c.zoom), r);
  }

  /** Translation and rotation keep areas, so only the zoom scales them. */
  lemma CameraMatrixDet(c: CameraState)
    ensures Det(CameraMatrix(c)) == Det(Scaling(c.zoom, c.zoom))
  {
    var t := Translate(Identity(), c.x, c.y);
    var r := Rotate(t, c.rotation);
    MultiplyIdentity(Translation(c.x, c.y));
    assert t == Translation(c.x, c.y);
    TranslationDet(c.x, c.y);
    RotationDet(c.rotation);
    MultiplyKeepsAffine(Rotation(c.rotation), t);
    AffineDetMultiply(Rotation(c.rotation), t);
    AffineDetMultiply(Scaling(c.zoom, c.zoom), r);
  }

  /** The camera matrix can be inverted exactly when the zoom is not 0. */
  lemma CameraInvertible(c: CameraState)
    ensures Invert(CameraMatrix(c)).Some? <==> c.zoom != 0.0
  {
    CameraMatrixDet(c);
    InvertSomeIff(CameraMatrix(c));
    InvertSomeIff(Scaling(c.zoom, c.zoom));
    ScalingInvertible(c.zoom, c.zoom);
  }

  /** The `viewProjectionMatrix` computed property: the projection of the
      canvas times the inverse of the camera.  The source dereferences the
      inverse without a check, so the zoom must not be 0; a zero-sized
      canvas would divide by 0 in the projection. */
  function ViewProjection(c: CameraState, width: real, height: real): Mat3
    requires c.zoom != 0.0 && width != 0.0 && height != 0.0
  {
    CameraInvertible(c);
    Multiply(Projection(width, height), Invert(CameraMatrix(c)).value)
  }

  /** A point given relative to the camera is drawn where the projection
      alone would draw it: the view matrix undoes the camera. */
  lemma ViewProjectionUndoesCamera(c: CameraState, width: real, height: real, p: Vec2)
    requires c.zoom != 0.0 && width != 0.0 && height != 0.0
    ensures TransformPoint(TransformPoint(p, CameraMatrix(c)), ViewProjection(c, width, height))
         == TransformPoint(p, Projection(width, height))
  {
    var cam := CameraMatrix(c);
    CameraMatrixAffine(c);
    CameraInvertible(c);
    var view := Invert(cam).value;
    InvertKeepsAffine(cam);
    TransformMultiply(TransformPoint(p, cam), Projection(width, height), view);
    InvertRoundTrip(p, cam);
  }

  lemma ViewProjectionAffine(c: CameraState, width: real, height: real)
    requires c.zoom != 0.0 && width != 0.0 && height != 0.0
    ensures IsAffine(ViewProjection(c, width, height))
  {
    var cam := CameraMatrix(c);
    CameraMatrixAffine(c);
    CameraInvertible(c);
    InvertKeepsAffine(cam);
    MultiplyKeepsAffine(Projection(width, height), Invert(cam).value);
  }

  /** `invert(vpMatrix)`, which `onDrag` takes at the start of a drag, is
      never `null` while the zoom and the canvas size are not 0. */
  lemma ViewProjectionInvertible(c: CameraState, width: real, height: real)
    requires c.zoom != 0.0 && width != 0.0 && height != 0.0
    ensures Invert(ViewProjection(c, width, height)).Some?
  {
    var cam := CameraMatrix(c);
    CameraMatrixAffine(c);
    CameraInvertible(c);
    InvertKeepsAffine(cam);
    InverseDetNonzero(cam);
    ProjectionDet(width, height);
    MultiplyInvertible(Projection(width, height), Invert(cam).value);
  }

  /** Accumulated wheel zoom: the camera after `onZoom` has been called with
      each of `deltas` in turn. */
  function ZoomedBy(c: CameraState, deltas: seq<real>): CameraState
    decreases |deltas|
  {
    if deltas == [] then c
    else ZoomedBy(c.(zoom := c.zoom + deltas[0]), deltas[1..])
  }

  function Sum(deltas: seq<real>): real
    decreases |deltas|
  {
    if deltas == [] then 0.0 else deltas[0] + Sum(deltas[1..])
  }

  /** Zoom steps add up and leave the position and rotation alone. */
  lemma {:induction false} ZoomAccumulates(c: CameraState, deltas: seq<real>)
    ensures ZoomedBy(c, deltas).zoom == c.zoom + Sum(deltas)
    ensures ZoomedBy(c, deltas).(zoom := c.zoom) == c
    decreases |deltas|
  {
    if deltas != [] {
      ZoomAccumulates(c.(zoom := c.zoom + deltas[0]), deltas[1..]);
    }
  }

  /** Three wheel notches toward the user add 0.75 to the zoom. */
  lemma ThreeNotches(c: CameraState)
    ensures ZoomedBy(c, [0.25, 0.25, 0.25]).zoom == c.zoom + 0.75
  {
    ZoomAccumulates(c, [0.25, 0.25, 0.25]);
    assert Sum([0.25, 0.25, 0.25]) == 0.75 by {
      assert [0.25, 0.25, 0.25][1..] == [0.25, 0.25];
      assert [0.25, 0.25][1..] == [0.25];
      assert [0.25][1..] == [];
    }
  }

  /** What a drag remembers between mouse moves: the inverse of the
      view-projection matrix at its start, the camera at its start, and the
      start point taken into world space through that inverse. */
  datatype DragSession = DragSession(inverse: Mat3, camera: CameraState, point: Vec2)

  /** The session the first `onDrag` of a drag records. */
  function Capture(c: CameraState, start: Vec2, width: real, height: real): (s: DragSession)
    requires c.zoom != 0.0 && width != 0.0 && height != 0.0
    ensures s.camera == c
    ensures s.point == TransformPoint(start, s.inverse)
    ensures Multiply(ViewProjection(c, width, height), s.inverse) == Identity()
    ensures Multiply(s.inverse, ViewProjection(c, width, height)) == Identity()
  {
    ViewProjectionInvertible(c, width, height);
    InvertIsInverse(ViewProjection(c, width, height));
    var inv := Invert(ViewProjection(c, width, height)).value;
    DragSession(inv, c, TransformPoint(start, inv))
  }

  /** The camera after a mouse move to `current` within session `s`: the
      start position shifted by the start point minus the current point, both
      read in the session's frame; the zoom and rotation of `cam` stay. */
  function DragTo(s: DragSession, cam: CameraState, current: Vec2): CameraState
  {
    var here := TransformPoint(current, s.inverse);
    cam.(x := s.camera.x + s.point.x - here.x, y := s.camera.y + s.point.y - here.y)
  }

  /** The pan is the session inverse's linear part applied to the mouse
      travel from `current` back to `start`; the translation row of the
      inverse cancels out. */
  lemma DragDisplacement(s: DragSession, cam: CameraState, start: Vec2, current: Vec2)
    requires s.point == TransformPoint(start, s.inverse)
    ensures DragTo(s, cam, current).x - s.camera.x
         == s.inverse.m0 * (start.x - current.x) + s.inverse.m3 * (start.y - current.y)
    ensures DragTo(s, cam, current).y - s.camera.y
         == s.inverse.m1 * (start.x - current.x) + s.inverse.m4 * (start.y - current.y)
  {
    var m := s.inverse;
    LinearDifference(m.m0, m.m3, m.m6, start.x, start.y, current.x, current.y);
    LinearDifference(m.m1, m.m4, m.m7, start.x, start.y, current.x, current.y);
  }

  lemma LinearDifference(a: real, b: real, t: real, px: real, py: real, qx: real, qy: real)
    ensures (a * px + b * py + t) - (a * qx + b * qy + t) == a * (px - qx) + b * (py - qy)
  {
    assert a * (px - qx) == a * px - a * qx;
    assert b * (py - qy) == b * py - b * qy;
  }

  /** Moving the mouse back to where the drag began puts the camera back
      where it was when the drag began. */
  lemma DragBackToStart(s: DragSession, cam: CameraState, start: Vec2)
    requires s.point == TransformPoint(start, s.inverse)
    ensures DragTo(s, cam, start).x == s.camera.x
    ensures DragTo(s, cam, start).y == s.camera.y
  {
    DragDisplacement(s, cam, start, start);
  }

  /** Within one session the pan depends only on the current point: earlier
      moves leave no trace in the position. */
  lemma DragForgetsEarlierMoves(s: DragSession, cam: CameraState, earlier: Vec2, current: Vec2)
    ensures DragTo(s, DragTo(s, cam, earlier), current) == DragTo(s, cam, current)
  {
  }

  /** The camera matrix shifts a point by (x, y), then turns it, then
      scales it by the zoom: the translation acts before the zoom. */
  lemma CameraPlaces(c: CameraState, q: Vec2)
    ensures TransformPoint(q, CameraMatrix(c))
         == Vec2(c.zoom * (c.rotation.cos * (q.x + c.x) + c.rotation.sin * (q.y + c.y)),
                 c.zoom * (c.rotation.cos * (q.y + c.y) - c.rotation.sin * (q.x + c.x)))
  {
    var t := Translate(Identity(), c.x, c.y);
    var r := Rotate(t, c.rotation);
    MultiplyKeepsAffine(Translation(c.x, c.y), Identity());
    MultiplyKeepsAffine(Rotation(c.rotation), t);
    TransformIdentity(q);
    TranslateMovesPoints(q, Identity(), c.x, c.y);
    RotateTurnsPoints(q, t, c.rotation);
    ScaleStretchesPoints(q, r, c.zoom, c.zoom);
  }

  /** The canvas pixel a clip-space point stands for: the inverse of the
      projection. */
  function PixelOf(p: Vec2, width: real, height: real): Vec2
  {
    Vec2((p.x + 1.0) / 2.0 * width, (1.0 - p.y) / 2.0 * height)
  }

  lemma ProjectionOfPixel(p: Vec2, width: real, height: real)
    requires width != 0.0 && height != 0.0
    ensures TransformPoint(PixelOf(p, width, height), Projection(width, height)) == p
  {
    var q := PixelOf(p, width, height);
    assert q.x * (2.0 / width) == p.x + 1.0;
    assert q.y * (-2.0 / height) == p.y - 1.0;
  }

  /** The world point camera `c` draws at clip-space point `p`. */
  function WorldUnder(c: CameraState, width: real, height: real, p: Vec2): Vec2
  {
    TransformPoint(PixelOf(p, width, height), CameraMatrix(c))
  }

  lemma WorldUnderIsDrawnThere(c: CameraState, width: real, height: real, p: Vec2)
    requires c.zoom != 0.0 && width != 0.0 && height != 0.0
    ensures TransformPoint(WorldUnder(c, width, height, p), ViewProjection(c, width, height)) == p
  {
    ViewProjectionUndoesCamera(c, width, height, PixelOf(p, width, height));
    ProjectionOfPixel(p, width, height);
  }

  /** A session reads clip-space points as the world points under them at
      the start of the drag: `dragStartPoint` is the grabbed world point. */
  lemma SessionReadsWorldUnder(c: CameraState, start: Vec2, current: Vec2, width: real, height: real)
    requires c.zoom != 0.0 && width != 0.0 && height != 0.0
    ensures Capture(c, start, width, height).point == WorldUnder(c, width, height, start)
    ensures TransformPoint(current, Capture(c, start, width, height).inverse)
         == WorldUnder(c, width, height, current)
  {
    var vp := ViewProjection(c, width, height);
    ViewProjectionAffine(c, width, height);
    ViewProjectionInvertible(c, width, height);
    InvertRoundTrip(WorldUnder(c, width, height, start), vp);
    InvertRoundTrip(WorldUnder(c, width, height, current), vp);
    WorldUnderIsDrawnThere(c, width, height, start);
    WorldUnderIsDrawnThere(c, width, height, current);
  }

  /** Without rotation, the world point under `p` is its pixel shifted by
      the camera position and scaled by the zoom. */
  lemma WorldUnderUnrotated(c: CameraState, width: real, height: real, p: Vec2)
    requires c.rotation.cos == 1.0 && c.rotation.sin == 0.0
    ensures WorldUnder(c, width, height, p).x == c.zoom * (PixelOf(p, width, height).x + c.x)
    ensures WorldUnder(c, width, height, p).y == c.zoom * (PixelOf(p, width, height).y + c.y)
  {
    var q := PixelOf(p, width, height);
    var t := Translate(Identity(), c.x, c.y);
    assert Rotation(c.rotation) == Identity();
    MultiplyIdentity(t);
    assert CameraMatrix(c) == Scale(t, c.zoom, c.zoom);
    MultiplyKeepsAffine(Translation(c.x, c.y), Identity());
    TransformIdentity(q);
    TranslateMovesPoints(q, Identity(), c.x, c.y);
    ScaleStretchesPoints(q, t, c.zoom, c.zoom);
  }

  /** So the source pans by the difference of two world points, read at
      the start of the drag. */
  lemma DragToReadsWorld(c: CameraState, cam: CameraState, start: Vec2, current: Vec2,
                         width: real, height: real)
    requires c.zoom != 0.0 && width != 0.0 && height != 0.0
    ensures var p, q := WorldUnder(c, width, height, start), WorldUnder(c, width, height, current);
            DragTo(Capture(c, start, width, height), cam, current)
              == cam.(x := c.x + p.x - q.x, y := c.y + p.y - q.y)
  {
    SessionReadsWorldUnder(c, start, current, width, height);
  }

  /** As written, a drag loses the grabbed point whenever the zoom is
      neither 0 nor 1: without rotation, any horizontal mouse travel leaves
      a different world point under the cursor.  (At the initial zoom of
      0.5 on a 2 x 2 canvas, dragging from clip (0, 0) to (1, 0) grabs world
      (0.5, 0.5) and ends with (0.75, 0.5) under the cursor.) */
  lemma DragMissesCursorOffUnitZoom(c: CameraState, start: Vec2, current: Vec2,
                                    width: real, height: real)
    requires c.zoom != 0.0 && c.zoom != 1.0 && c.rotation.cos == 1.0 && c.rotation.sin == 0.0
    requires width != 0.0 && height != 0.0 && start.x != current.x
    ensures WorldUnder(DragTo(Capture(c, start, width, height), c, current), width, height, current)
         != Capture(c, start, width, height).point
  {
    var s := Capture(c, start, width, height);
    var after := DragTo(s, c, current);
    assert s.point == WorldUnder(c, width, height, start) by {
      SessionReadsWorldUnder(c, start, current, width, height);
    }
    assert after.zoom == c.zoom && after.rotation == c.rotation;
    assert after.x == c.x + WorldUnder(c, width, height, start).x
                          - WorldUnder(c, width, height, current).x by {
      DragToReadsWorld(c, c, start, current, width, height);
    }
    PanByWorldMisses(c, after, start, current, width, height);
  }

  /** The drag above with the session read out: the camera moved by the
      difference of the two world points. */
  lemma PanByWorldMisses(c: CameraState, after: CameraState, start: Vec2, current: Vec2,
                         width: real, height: real)
    requires c.zoom != 0.0 && c.zoom != 1.0 && c.rotation.cos == 1.0 && c.rotation.sin == 0.0
    requires width != 0.0 && start.x != current.x
    requires after.zoom == c.zoom && after.rotation == c.rotation
    requires after.x == c.x + WorldUnder(c, width, height, start).x - WorldUnder(c, width, height, current).x
    ensures WorldUnder(after, width, height, current) != WorldUnder(c, width, height, start)
  {
    var p, q := PixelOf(start, width, height), PixelOf(current, width, height);
    WorldUnderUnrotated(c, width, height, start);
    WorldUnderUnrotated(c, width, height, current);
    WorldUnderUnrotated(after, width, height, current);
    assert p.x != q.x by {
      assert p.x - q.x == (start.x - current.x) / 2.0 * width;
      ProductNonzero((start.x - current.x) / 2.0, width);
    }
    MissedBy(c.zoom, c.x, p.x, q.x, WorldUnder(c, width, height, start).x,
             WorldUnder(c, width, height, current).x, after.x, WorldUnder(after, width, height, current).x);
  }

  /** The x coordinate of the drag above, over plain reals. */
  lemma MissedBy(z: real, x: real, px: real, qx: real, a: real, b: real, x1: real, r: real)
    requires z != 0.0 && z != 1.0 && px != qx
    requires a == z * (px + x) && b == z * (qx + x)
    requires x1 == x + a - b && r == z * (qx + x1)
    ensures r != a
  {
    var k, e := z * (1.0 - z), qx - px;
    assert r - a == k * e by {
      assert a - b == z * (px - qx);
      assert r == z * qx + z * x + z * (a - b);
    }
    assert k != 0.0 by {
      ProductNonzero(z, 1.0 - z);
    }
    ProductNonzero(k, e);
  }

  /** The pan that keeps the grabbed point under the cursor: the start
      position shifted by the mouse travel read in canvas pixels, the frame
      in which the camera's translation acts. */
  function DragFollowingCursor(start: CameraState, cam: CameraState, from: Vec2, to: Vec2,
                               width: real, height: real): CameraState
  {
    var p, q := PixelOf(from, width, height), PixelOf(to, width, height);
    cam.(x := start.x + p.x - q.x, y := start.y + p.y - q.y)
  }

  /** Whatever the zoom and rotation, the world point grabbed at `from`
      lies under the cursor at `to`. */
  lemma DragFollowingCursorKeepsGrab(start: CameraState, cam: CameraState, from: Vec2, to: Vec2,
                                     width: real, height: real)
    requires cam.zoom == start.zoom && cam.rotation == start.rotation
    ensures WorldUnder(DragFollowingCursor(start, cam, from, to, width, height), width, height, to)
         == WorldUnder(start, width, height, from)
  {
    var after := DragFollowingCursor(start, cam, from, to, width, height);
    var p, q := PixelOf(from, width, height), PixelOf(to, width, height);
    CameraPlaces(after, q);
    CameraPlaces(start, p);
    assert q.x + after.x == p.x + start.x;
    assert q.y + after.y == p.y + start.y;
  }

  /** At zoom 1 without rotation the source's pan is the pan that follows
      the cursor. */
  lemma DragAtUnitZoomFollowsCursor(c: CameraState, cam: CameraState, start: Vec2, current: Vec2,
                                    width: real, height: real)
    requires c.zoom == 1.0 && c.rotation.cos == 1.0 && c.rotation.sin == 0.0
    requires width != 0.0 && height != 0.0
    ensures DragTo(Capture(c, start, width, height), cam, current)
         == DragFollowingCursor(c, cam, start, current, width, height)
  {
    DragToReadsWorld(c, cam, start, current, width, height);
    WorldUnderUnrotated(c, width, height, start);
    WorldUnderUnrotated(c, width, height, current);
  }

  /** Two wheel notches away from the user take the initial camera to zoom
      0, where the camera matrix has no inverse and `vpMatrix` would pass
      `null` to `multiply`. */
  lemma TwoNotchesOutLoseTheInverse()
    ensures ZoomedBy(InitialCamera(), [-0.25, -0.25]).zoom == 0.0
    ensures Invert(CameraMatrix(ZoomedBy(InitialCamera(), [-0.25, -0.25]))).None?
  {
    ZoomAccumulates(InitialCamera(), [-0.25, -0.25]);
    assert Sum([-0.25, -0.25]) == -0.5 by {
      assert [-0.25, -0.25][1..] == [-0.25];
      assert [-0.25][1..] == [];
    }
    CameraInvertible(ZoomedBy(InitialCamera(), [-0.25, -0.25]));
  }

  /** A teardown callback registered by `init`; the only one the base case
      registers is the watcher's stop handle. */
  datatype Effect = Unwatch

  /** The base class of every demo: the camera state, the drag session and
      the render scheduling.  `watching` stands for the deep watcher on the
      state, `frameArmed` for a pending animation-frame callback; `renders`
      records the camera each call of `render` received and `effectsRun` the
      teardown callbacks in the order they ran. */
  class RenderCase {
    var camera: CameraState
    const alwaysRerender: bool
    var unmounted: bool
    var unmountEffects: seq<Effect>
    /** `dragStartViewProjectionMatrix` in the source, which holds the
        inverse of the view-projection matrix. */
    var dragStartInverse: Option<Mat3>
    var dragStartCamera: Option<CameraState>
    var dragStartPoint: Option<Vec2>
    var watching: bool
    var frameArmed: bool
    var renders: seq<CameraState>
    var effectsRun: seq<Effect>

    /** The session fields are set together; the render mode decides which
        scheduler is in use and which teardown callbacks exist. */
    predicate Valid()
      reads this
    {
      && (dragStartInverse.Some? <==> dragStartCamera.Some?)
      && (dragStartInverse.Some? ==> dragStartPoint.Some?)
      && (alwaysRerender ==> !watching && unmountEffects == [])
      && (!alwaysRerender ==> !frameArmed && unmountEffects == [Unwatch])
      && (unmounted ==> !watching)
    }

    /** The current drag session, when one is open. */
    function Session(): Option<DragSession>
      reads this
      requires Valid()
    {
      if dragStartInverse.Some?
      then Some(DragSession(dragStartInverse.value, dragStartCamera.value, dragStartPoint.value))
      else None
    }

    /** The camera starts at `InitialCamera()` with no drag session; `init`
        then either renders and arms the frame loop, or starts an immediate
        watcher, which renders once, and registers its stop handle. */
    constructor(alwaysRerender: bool)
      ensures Valid()
      ensures camera == InitialCamera()
      ensures this.alwaysRerender == alwaysRerender && !unmounted
      ensures dragStartInverse.None? && dragStartCamera.None? && dragStartPoint.None?
      ensures renders == [InitialCamera()] && effectsRun == []
      ensures alwaysRerender ==> frameArmed && !watching && unmountEffects == []
      ensures !alwaysRerender ==> !frameArmed && watching && unmountEffects == [Unwatch]
    {
      camera := InitialCamera();
      this.alwaysRerender := alwaysRerender;
      unmounted := false;
      dragStartInverse := None;
      dragStartCamera := None;
      dragStartPoint := None;
      effectsRun := [];
      renders := [InitialCamera()];
      if alwaysRerender {
        frameArmed := true;
        watching := false;
        unmountEffects := [];
      } else {
        frameArmed := false;
        watching := true;
        unmountEffects := [Unwatch];
      }
    }

    /** A state change reaches `render` only through the watcher. */
    method OnStateChange()
      requires Valid()
      modifies this
      ensures Valid()
      ensures renders == if old(watching) then old(renders) + [camera] else old(renders)
      ensures camera == old(camera) && watching == old(watching) && frameArmed == old(frameArmed)
      ensures unmounted == old(unmounted) && unmountEffects == old(unmountEffects)
      ensures Session() == old(Session()) && dragStartPoint == old(dragStartPoint)
      ensures effectsRun == old(effectsRun)
    {
      if watching {
        renders := renders + [camera];
      }
    }

    /** The animation-frame callback: `rafRender` renders and asks for the
        next frame only while the case is mounted. */
    method Tick()
      requires Valid() && frameArmed
      modifies this
      ensures Valid()
      ensures unmounted == old(unmounted)
      ensures !unmounted ==> renders == old(renders) + [camera] && frameArmed
      ensures unmounted ==> renders == old(renders) && !frameArmed
      ensures camera == old(camera) && watching == old(watching)
      ensures unmountEffects == old(unmountEffects) && effectsRun == old(effectsRun)
      ensures Session() == old(Session()) && dragStartPoint == old(dragStartPoint)
    {
      frameArmed := false;
      if !unmounted {
        renders := renders + [camera];
        frameArmed := true;
      }
    }

    /** Marks the case unmounted, then runs every teardown callback in the
        order it was registered; stopping the watcher ends reactive renders. */
    method Unmount()
      requires Valid()
      modifies this
      ensures Valid()
      ensures unmounted
      ensures effectsRun == old(effectsRun) + unmountEffects
      ensures watching == (old(watching) && Unwatch !in unmountEffects)
      ensures !watching
      ensures camera == old(camera) && renders == old(renders) && frameArmed == old(frameArmed)
      ensures unmountEffects == old(unmountEffects)
      ensures Session() == old(Session()) && dragStartPoint == old(dragStartPoint)
    {
      unmounted := true;
      var effects := unmountEffects;
      var run := effectsRun;
      var stillWatching := watching;
      for i := 0 to |effects|
        invariant run == effectsRun + effects[..i]
        invariant stillWatching == (watching && Unwatch !in effects[..i])
      {
        match effects[i]
        case Unwatch => stillWatching := false;
        run := run + [effects[i]];
      }
      assert effects[..|effects|] == effects;
      effectsRun := run;
      watching := stillWatching;
    }

    /** The wheel handler adds `zoomDelta` to the zoom and nothing else. */
    method OnZoom(zoomDelta: real)
      requires Valid()
      modifies this
      ensures Valid()
      ensures camera == ZoomedBy(old(camera), [zoomDelta])
      ensures renders == old(renders) && watching == old(watching) && frameArmed == old(frameArmed)
      ensures unmounted == old(unmounted) && unmountEffects == old(unmountEffects)
      ensures effectsRun == old(effectsRun)
      ensures Session() == old(Session()) && dragStartPoint == old(dragStartPoint)
    {
      camera := camera.(zoom := camera.zoom + zoomDelta);
    }

    /** The drag handler.  The first call of a drag records the session for
        the current camera and canvas size; every call then sets the
        position from the session and `current`.  Without an open session
        the inverse must exist, so the zoom and the canvas size must not be
        0. */
    method OnDrag(start: Vec2, current: Vec2, width: real, height: real)
      requires Valid()
      requires dragStartInverse.Some? || (camera.zoom != 0.0 && width != 0.0 && height != 0.0)
      modifies this
      ensures Valid() && Session().Some?
      ensures old(Session()).None? ==>
                Session() == Some(Capture(old(camera), start, width, height))
                && dragStartPoint == Some(Session().value.point)
      ensures old(Session()).Some? ==>
                Session() == old(Session()) && dragStartPoint == old(dragStartPoint)
      ensures camera == DragTo(Session().value, old(camera), current)
      ensures camera.zoom == old(camera).zoom && camera.rotation == old(camera).rotation
      ensures renders == old(renders) && watching == old(watching) && frameArmed == old(frameArmed)
      ensures unmounted == old(unmounted) && unmountEffects == old(unmountEffects)
      ensures effectsRun == old(effectsRun)
    {
      if dragStartInverse.None? {
        var s := Capture(camera, start, width, height);
        dragStartInverse := Some(s.inverse);
        dragStartCamera := Some(camera);
        dragStartPoint := Some(TransformPoint(start, s.inverse));
      }
      var here := TransformPoint(current, dragStartInverse.value);
      camera := camera.(x := dragStartCamera.value.x + dragStartPoint.value.x - here.x,
                        y := dragStartCamera.value.y + dragStartPoint.value.y - here.y);
    }

    /** Ending a drag forgets the session matrix and camera, so the next
        drag starts afresh; the start point is kept and the camera stays. */
    method OnDragEnd()
      requires Valid()
      modifies this
      ensures Valid() && Session().None?
      ensures dragStartPoint == old(dragStartPoint)
      ensures camera == old(camera)
      ensures renders == old(renders) && watching == old(watching) && frameArmed == old(frameArmed)
      ensures unmounted == old(unmounted) && unmountEffects == old(unmountEffects)
      ensures effectsRun == old(effectsRun)
    {
      dragStartInverse := None;
      dragStartCamera := None;
    }

    /** The base case ignores rotation gestures. */
    method OnRotation()
    {
    }
  }
}
