/** The "2D transforms" demo: an F shape drawn five times, each copy moved,
    turned and scaled once more than the one before. */
module TwoDemTransform {
  import opened M3
  import Camera

  /** The case's own state: a translation in pixels, a rotation (as its
      cosine and sine) and a uniform scale. */
  datatype TransformState = TransformState(x: real, y: real, rotation: UnitAngle, scale: real)

  /** The case re-renders on state changes rather than every frame. */
  const AlwaysRerender := false

  /** No translation, no rotation, unit scale. */
  function InitialState(): (s: TransformState)
    ensures s.x == 0.0 && s.y == 0.0 && s.scale == 1.0
    ensures s.rotation.cos == 1.0 && s.rotation.sin == 0.0
  {
    TransformState(0.0, 0.0, Angle(1.0, 0.0), 1.0)
  }

  /** The F: a left column, a top rung and a middle rung, two triangles each,
      as consecutive x, y pairs. */
  const Geometry: seq<real> := [
    0.0, 0.0, 30.0, 0.0, 0.0, 150.0, 0.0, 150.0, 30.0, 0.0, 30.0, 150.0,
    30.0, 0.0, 100.0, 0.0, 30.0, 30.0, 30.0, 30.0, 100.0, 0.0, 100.0, 30.0,
    30.0, 60.0, 67.0, 60.0, 30.0, 90.0, 30.0, 90.0, 67.0, 60.0, 67.0, 90.0
  ]

  /** Vertices each draw call consumes: six triangles of three points. */
  const DrawCount: nat := 18

  /** Copies of the F each render draws. */
  const Copies: nat := 5

  /** The geometry holds exactly the vertices one draw call reads. */
  lemma GeometryMatchesDrawCount()
    ensures |Geometry| == 36 && |Geometry| == 2 * DrawCount
  {
  }

  /** One turn of the render loop: translate, then rotate, then scale,
      each multiplied onto the running matrix. */
  function Step(s: TransformState, m: Mat3): Mat3
  {
    Multiply(Multiply(Multiply(m, Translation(s.x, s.y)), Rotation(s.rotation)),
             Scaling(s.scale, s.scale))
  }

  /** `k` turns of the loop starting from `m`. */
  function Chain(s: TransformState, m: Mat3, k: nat): Mat3
    decreases k
  {
    if k == 0 then m else Step(s, Chain(s, m, k - 1))
  }

  /** A turn applies to a point the scale, then the rotation, then the
      translation, and then whatever the running matrix did. */
  lemma StepTransformsPoints(s: TransformState, m: Mat3, p: Vec2)
    ensures TransformPoint(p, Step(s, m))
         == TransformPoint(TransformPoint(TransformPoint(TransformPoint(p,
              Scaling(s.scale, s.scale)), Rotation(s.rotation)), Translation(s.x, s.y)), m)
  {
    var t := Multiply(m, Translation(s.x, s.y));
    var tr := Multiply(t, Rotation(s.rotation));
    TransformMultiply(p, tr, Scaling(s.scale, s.scale));
    TransformMultiply(TransformPoint(p, Scaling(s.scale, s.scale)), t, Rotation(s.rotation));
    TransformMultiply(TransformPoint(TransformPoint(p, Scaling(s.scale, s.scale)), Rotation(s.rotation)),
                      m, Translation(s.x, s.y));
  }

  /** With the initial state a turn multiplies by three identities. */
  lemma InitialStepIsIdentity(m: Mat3)
    ensures Step(InitialState(), m) == m
  {
    var s := InitialState();
    assert Translation(s.x, s.y) == Identity();
    assert Rotation(s.rotation) == Identity();
    assert Scaling(s.scale, s.scale) == Identity();
    MultiplyIdentity(m);
  }

  /** So with the initial state each of the five matrices is the
      projection itself. */
  lemma {:induction false} InitialChainIsConstant(m: Mat3, k: nat)
    ensures Chain(InitialState(), m, k) == m
    decreases k
  {
    if k > 0 {
      var previous := Chain(InitialState(), m, k - 1);
      InitialChainIsConstant(m, k - 1);
      InitialStepIsIdentity(previous);
    }
  }

  /** The `render` loop with the GL calls reduced to what they receive:
      the matrix uploaded before each draw and the vertex count of the
      draw. */
  method Render(s: TransformState, width: real, height: real)
    returns (uploads: seq<Mat3>, draws: seq<nat>)
    requires width != 0.0 && height != 0.0
    ensures |uploads| == Copies && |draws| == Copies
    ensures forall k :: 0 <= k < Copies ==> uploads[k] == Chain(s, Projection(width, height), k + 1)
    ensures forall k :: 0 <= k < Copies ==> draws[k] == DrawCount
  {
    var translateMatrix := Translation(s.x, s.y);
    var rotationMatrix := Rotation(s.rotation);
    var scaleMatrix := Scaling(s.scale, s.scale);
    var matrix := Projection(width, height);
    uploads, draws := [], [];
    for i := 0 to 5
      invariant |uploads| == i && |draws| == i
      invariant matrix == Chain(s, Projection(width, height), i)
      invariant forall k :: 0 <= k < i ==> uploads[k] == Chain(s, Projection(width, height), k + 1)
      invariant forall k :: 0 <= k < i ==> draws[k] == DrawCount
    {
      matrix := Multiply(matrix, translateMatrix);
      matrix := Multiply(matrix, rotationMatrix);
      matrix := Multiply(matrix, scaleMatrix);
      uploads := uploads + [matrix];
      draws := draws + [18];
    }
  }

  /** In the initial state the five uploads all equal the projection. */
  lemma InitialRenderUploadsProjection(width: real, height: real, k: nat)
    requires width != 0.0 && height != 0.0
    ensures Chain(InitialState(), Projection(width, height), k + 1) == Projection(width, height)
  {
    InitialChainIsConstant(Projection(width, height), k + 1);
  }

  /** Mounting the case with its own initial state: it renders once
      through its watcher, arms no animation frame and leaves the
      watcher's stop handle to unmounting. */
  method Mount() returns (c: Camera.RenderCase, state: TransformState)
    ensures c.Valid() && !c.alwaysRerender
    ensures c.watching && !c.frameArmed && c.unmountEffects == [Camera.Unwatch]
    ensures c.renders == [Camera.InitialCamera()]
    ensures state == InitialState()
  {
    c := new Camera.RenderCase(AlwaysRerender);
    state := InitialState();
  }
}
