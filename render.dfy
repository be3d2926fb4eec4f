/** What a shape looks like on the 2D drawing surface, as values: the outline
    each shape kind traces, the painting commands one `drawTo` issues, and the
    commands one full repaint of a scene issues. Coordinates are exact reals;
    the surface's y axis grows downwards. */
module Render {

  /** Colours are opaque values (CSS colour strings in practice); nothing
      inspects them. */
  type Color = string

  /** Line width of every shape's border. */
  const BorderWidth: real := 2.0

  datatype Point = Point(x: real, y: real)

  /** One subpath of a 2D path. */
  datatype SubPath =
    | RectSub(x: real, y: real, width: real, height: real)  // rect(x, y, width, height)
    | FullArc(center: Point, radius: real)                   // arc(cx, cy, r, 0, 2π, clockwise)
    | Polyline(points: seq<Point>)                           // moveTo(points[0]), then lineTo each later point

  type Path = seq<SubPath>

  /** The calls on the 2D context that change pixels. */
  datatype Op =
    | ClearRect(x: real, y: real, width: real, height: real)
    | Fill(path: Path, style: Color)
    | Stroke(path: Path, lineWidth: real, style: Color)

  /** The context's drawing state: the styles in force and the current path. */
  datatype Context = Context(fillStyle: Color, strokeStyle: Color, lineWidth: real, path: Path)

  /** The fields a concrete shape kind adds to position and colours. */
  datatype Geometry =
    | TriangleGeom(width: real, height: real)
    | RectangleGeom(width: real, height: real)
    | CircleGeom(radius: real)

  /** Everything `drawTo` reads from a shape. */
  datatype ShapeState = ShapeState(x: real, y: real, color: Color, borderColor: Color, geometry: Geometry)

  /** Vertices of the triangle anchored at (x, y): along the base to the
      right, up to the apex, and back to the start. */
  function TriangleOutline(x: real, y: real, width: real, height: real): (pts: seq<Point>)
    ensures |pts| == 4
    ensures pts[0] == pts[3] == Point(x, y)
    ensures pts[1].y == y && pts[1].x - pts[0].x == width
    ensures pts[2].x - pts[0].x == pts[1].x - pts[2].x
    ensures y - pts[2].y == height / 2.0
  {
    [Point(x, y), Point(x + width, y), Point(x + width / 2.0, y - height / 2.0), Point(x, y)]
  }

  function SquaredDistance(p: Point, q: Point): real
  {
    (p.x - q.x) * (p.x - q.x) + (p.y - q.y) * (p.y - q.y)
  }

  /** The apex is as far from one end of the base as from the other. */
  lemma TriangleIsIsosceles(x: real, y: real, width: real, height: real)
    ensures var pts := TriangleOutline(x, y, width, height);
            SquaredDistance(pts[2], pts[0]) == SquaredDistance(pts[2], pts[1])
  {
  }

  /** The path a shape is filled along and stroked along: one subpath, a
      rectangle anchored at the shape's corner, a full circle about its
      centre, or the triangle's vertex list. */
  function Outline(st: ShapeState): (p: Path)
    ensures |p| == 1
    ensures p[0].RectSub? <==> st.geometry.RectangleGeom?
    ensures p[0].FullArc? <==> st.geometry.CircleGeom?
    ensures p[0].Polyline? <==> st.geometry.TriangleGeom?
    ensures p[0].RectSub? ==>
      p[0].x == st.x && p[0].y == st.y &&
      p[0].width == st.geometry.width && p[0].height == st.geometry.height
    ensures p[0].FullArc? ==> p[0].center == Point(st.x, st.y) && p[0].radius == st.geometry.radius
    ensures p[0].Polyline? ==>
      p[0].points == TriangleOutline(st.x, st.y, st.geometry.width, st.geometry.height)
  {
    match st.geometry
    case TriangleGeom(w, h) => [Polyline(TriangleOutline(st.x, st.y, w, h))]
    case RectangleGeom(w, h) => [RectSub(st.x, st.y, w, h)]
    case CircleGeom(r) => [FullArc(Point(st.x, st.y), r)]
  }

  /** The painting commands of one `drawTo`. */
  function DrawOps(st: ShapeState): (ops: seq<Op>)
    ensures |ops| == 2
    ensures ops[0].Fill? && ops[0].style == st.color
    ensures ops[1].Stroke? && ops[1].style == st.borderColor && ops[1].lineWidth == BorderWidth
    ensures ops[0].path == ops[1].path == Outline(st)
  {
    [Fill(Outline(st), st.color), Stroke(Outline(st), BorderWidth, st.borderColor)]
  }

  /** The context's state after one `drawTo`: both styles and the line width
      are the shape's; the current path holds the rectangle or the arc, and is
      empty after a triangle, whose outline is a separate path object. */
  function ContextAfterDraw(st: ShapeState): (c: Context)
    ensures c.fillStyle == st.color && c.strokeStyle == st.borderColor
    ensures c.lineWidth == BorderWidth
    ensures c.path == [] <==> st.geometry.TriangleGeom?
    ensures c.path != [] ==> c.path == Outline(st)
  {
    Context(st.color, st.borderColor, BorderWidth,
            if st.geometry.TriangleGeom? then [] else Outline(st))
  }

  /** The context's state after drawing `sts` in order, starting from `c`. */
  function ContextAfterDraws(c: Context, sts: seq<ShapeState>): Context
  {
    if sts == [] then c else ContextAfterDraw(sts[|sts| - 1])
  }

  /** The commands of drawing every shape of `sts`, in order. */
  function DrawAll(sts: seq<ShapeState>): (ops: seq<Op>)
    ensures |ops| == 2 * |sts|
    ensures forall k :: 0 <= k < |ops| ==> !ops[k].ClearRect?
  {
    if sts == [] then [] else DrawAll(sts[..|sts| - 1]) + DrawOps(sts[|sts| - 1])
  }

  /** The commands of one full repaint of a `width` by `height` surface. */
  function RepaintOps(width: nat, height: nat, sts: seq<ShapeState>): (ops: seq<Op>)
    ensures |ops| == 1 + 2 * |sts|
    ensures ops[0] == ClearRect(0.0, 0.0, width as real, height as real)
    ensures forall k :: 1 <= k < |ops| ==> !ops[k].ClearRect?
  {
    [ClearRect(0.0, 0.0, width as real, height as real)] + DrawAll(sts)
  }

  /** The `i`-th pair of drawing commands is exactly the `i`-th shape's. */
  lemma {:induction false} DrawAllAt(sts: seq<ShapeState>, i: nat)
    requires i < |sts|
    ensures DrawAll(sts)[2 * i .. 2 * i + 2] == DrawOps(sts[i])
    decreases |sts|
  {
    var init := sts[..|sts| - 1];
    if i < |init| {
      DrawAllAt(init, i);
      assert DrawAll(sts)[..|DrawAll(init)|] == DrawAll(init);
    }
  }

  /** A repaint clears the whole surface once, then draws shape `i` in the
      `i`-th slot after the clear: every shape once, in list order. */
  lemma RepaintAt(width: nat, height: nat, sts: seq<ShapeState>, i: nat)
    requires i < |sts|
    ensures RepaintOps(width, height, sts)[1 + 2 * i .. 3 + 2 * i] == DrawOps(sts[i])
  {
    DrawAllAt(sts, i);
    assert RepaintOps(width, height, sts)[1..] == DrawAll(sts);
  }

  /** The commands of `drawTo` determine every field of the shape drawn. */
  lemma DrawOpsInjective(a: ShapeState, b: ShapeState)
    requires DrawOps(a) == DrawOps(b)
    ensures a == b
  {
  }

  /** The commands of a repaint determine the surface size and the whole
      list of shapes drawn, in order. */
  lemma RepaintDeterminesScene(w1: nat, h1: nat, a: seq<ShapeState>, w2: nat, h2: nat, b: seq<ShapeState>)
    requires RepaintOps(w1, h1, a) == RepaintOps(w2, h2, b)
    ensures w1 == w2 && h1 == h2 && a == b
  {
    assert |a| == |b|;
    forall i | 0 <= i < |a|
      ensures a[i] == b[i]
    {
      RepaintAt(w1, h1, a, i);
      RepaintAt(w2, h2, b, i);
      DrawOpsInjective(a[i], b[i]);
    }
  }
}
