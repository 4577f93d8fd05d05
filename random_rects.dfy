/** The "Random rects" demo: 25 rectangles at random places, each uploaded
    as two triangles and drawn with one call.  The random numbers are
    arguments here. */
module RandomRects {
  import opened M3
  import Camera

  /** The case keeps no state of its own and re-renders on state changes. */
  const AlwaysRerender := false

  /** Rectangles drawn per render, and vertices per rectangle. */
  const RectCount: nat := 25
  const VerticesPerRect: nat := 6

  /** `setRectangle`: the corners (x, y) and (x + width, y + height) spread
      into two triangles, as consecutive x, y pairs. */
  function SetRectangle(x: real, y: real, width: real, height: real): (data: seq<real>)
    ensures |data| == 2 * VerticesPerRect
    ensures forall k :: 0 <= k < VerticesPerRect ==>
              data[2 * k] in {x, x + width} && data[2 * k + 1] in {y, y + height}
  {
    var x1, x2, y1, y2 := x, x + width, y, y + height;
    [x1, y1, x2, y1, x1, y2, x1, y2, x2, y1, x2, y2]
  }

  /** The `k`-th vertex of a flat coordinate list. */
  function Vertex(data: seq<real>, k: nat): Vec2
    requires 2 * k + 1 < |data|
  {
    Vec2(data[2 * k], data[2 * k + 1])
  }

  /** The first triangle is (x1,y1) (x2,y1) (x1,y2) and the second
      (x1,y2) (x2,y1) (x2,y2): they meet along the diagonal from (x1,y2) to
      (x2,y1), and between them they use all four corners. */
  lemma RectangleTriangles(x: real, y: real, width: real, height: real)
    ensures var d := SetRectangle(x, y, width, height);
            && Vertex(d, 2) == Vertex(d, 3) == Vec2(x, y + height)
            && Vertex(d, 1) == Vertex(d, 4) == Vec2(x + width, y)
            && Vertex(d, 0) == Vec2(x, y)
            && Vertex(d, 5) == Vec2(x + width, y + height)
  {
  }

  /** The random choices for one rectangle. */
  datatype Rect = Rect(x: real, y: real, width: real, height: real)

  /** The `render` loop with the GL calls reduced to what they receive:
      the buffer uploaded for each rectangle and the vertex count of its
      draw.  `rects` are the values the random generator produced. */
  method Render(rects: seq<Rect>) returns (buffers: seq<seq<real>>, draws: seq<nat>)
    requires |rects| == RectCount
    ensures |buffers| == RectCount && |draws| == RectCount
    ensures forall k :: 0 <= k < RectCount ==>
              buffers[k] == SetRectangle(rects[k].x, rects[k].y, rects[k].width, rects[k].height)
    ensures forall k :: 0 <= k < RectCount ==> draws[k] == VerticesPerRect
  {
    buffers, draws := [], [];
    for idx := 0 to 25
      invariant |buffers| == idx && |draws| == idx
      invariant forall k :: 0 <= k < idx ==>
                  buffers[k] == SetRectangle(rects[k].x, rects[k].y, rects[k].width, rects[k].height)
      invariant forall k :: 0 <= k < idx ==> draws[k] == VerticesPerRect
    {
      var r := rects[idx];
      buffers := buffers + [SetRectangle(r.x, r.y, r.width, r.height)];
      draws := draws + [6];
    }
  }

  /** Mounting the case: it renders once through its watcher, arms no
      animation frame and leaves the watcher's stop handle to unmounting. */
  method Mount() returns (c: Camera.RenderCase)
    ensures c.Valid() && !c.alwaysRerender
    ensures c.watching && !c.frameArmed && c.unmountEffects == [Camera.Unwatch]
    ensures c.renders == [Camera.InitialCamera()]
  {
    c := new Camera.RenderCase(AlwaysRerender);
  }
}
