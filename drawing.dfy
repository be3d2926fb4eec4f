/** The retained-mode scene: a canvas, the ordered list of shapes drawn on it,
    and the shapes themselves. Every change to the list, to the canvas size or
    to a shape's fields repaints the whole scene at once. */
module Drawing {
  import opened Render
  import opened Lists

  /** The host's canvas together with its 2D context: its size, the context's
      drawing state, and the log of painting commands issued so far. */
  class Canvas {
    var width: nat
    var height: nat
    var fillStyle: Color
    var strokeStyle: Color
    var lineWidth: real
    var path: Path
    var ops: seq<Op>

    function CurrentContext(): Context
      reads this
    {
      Context(fillStyle, strokeStyle, lineWidth, path)
    }

    /** A new canvas has the host's default size and context state. */
    constructor ()
      ensures width == 300 && height == 150
      ensures CurrentContext() == Context("#000000", "#000000", 1.0, [])
      ensures ops == []
    {
      width, height := 300, 150;
      fillStyle, strokeStyle, lineWidth, path := "#000000", "#000000", 1.0, [];
      ops := [];
    }

    method ClearRect(x: real, y: real, w: real, h: real)
      modifies this`ops
      ensures ops == old(ops) + [Op.ClearRect(x, y, w, h)]
    {
      ops := ops + [Op.ClearRect(x, y, w, h)];
    }

    method BeginPath()
      modifies this`path
      ensures path == []
    {
      path := [];
    }

    method Rect(x: real, y: real, w: real, h: real)
      modifies this`path
      ensures path == old(path) + [RectSub(x, y, w, h)]
    {
      path := path + [RectSub(x, y, w, h)];
    }

    /** A full turn of arc, from angle 0 to 2π clockwise. */
    method FullCircle(cx: real, cy: real, r: real)
      modifies this`path
      ensures path == old(path) + [FullArc(Point(cx, cy), r)]
    {
      path := path + [FullArc(Point(cx, cy), r)];
    }

    /** Fills `p` with the current fill style. */
    method FillPath(p: Path)
      modifies this`ops
      ensures ops == old(ops) + [Fill(p, fillStyle)]
    {
      ops := ops + [Fill(p, fillStyle)];
    }

    /** Strokes `p` with the current line width and stroke style. */
    method StrokePath(p: Path)
      modifies this`ops
      ensures ops == old(ops) + [Stroke(p, lineWidth, strokeStyle)]
    {
      ops := ops + [Stroke(p, lineWidth, strokeStyle)];
    }
  }

  /** The drawn state of each shape of `ss`, in order. */
  function StatesOf(ss: seq<Shape>): (sts: seq<ShapeState>)
    reads ss
    ensures |sts| == |ss|
    ensures forall i :: 0 <= i < |ss| ==> sts[i] == ss[i].State()
  {
    if ss == [] then [] else [ss[0].State()] + StatesOf(ss[1..])
  }

  class Scene {
    const canvas: Canvas
    var shapes: seq<Shape>

    /** Exactly one full repaint happened since the pre-state: the canvas
        kept its size, its log grew by the commands of repainting the current
        list, and its drawing state is the one those commands leave. */
    twostate predicate Repainted()
      reads this, canvas, shapes
    {
      canvas.width == old(canvas.width) && canvas.height == old(canvas.height) &&
      canvas.ops == old(canvas.ops) + RepaintOps(canvas.width, canvas.height, StatesOf(shapes)) &&
      canvas.CurrentContext() == ContextAfterDraws(old(canvas.CurrentContext()), StatesOf(shapes))
    }

    /** A scene starts with a fresh canvas of the viewport's size, no shapes,
        and one repaint. */
    constructor (viewWidth: nat, viewHeight: nat)
      ensures fresh(canvas) && shapes == []
      ensures canvas.width == viewWidth && canvas.height == viewHeight
      ensures canvas.ops == RepaintOps(viewWidth, viewHeight, [])
    {
      canvas := new Canvas();
      shapes := [];
      new;
      UpdateSize(viewWidth, viewHeight);
    }

    /** Appends `s` (a second copy if it is already there) and repaints. */
    method AddShape(s: Shape) returns (ok: bool)
      modifies this`shapes, canvas
      ensures ok
      ensures shapes == old(shapes) + [s]
      ensures Repainted()
    {
      shapes := shapes + [s];
      Update();
      return true;
    }

    /** Removes the first occurrence of `s` and repaints; when `s` is not in
        the list, changes nothing and reports failure. */
    method RemoveShape(s: Shape) returns (ok: bool)
      modifies this`shapes, canvas
      ensures ok <==> s in old(shapes)
      ensures ok ==> shapes == RemoveAt(old(shapes), IndexOf(old(shapes), s)) && Repainted()
      ensures !ok ==> shapes == old(shapes) && unchanged(canvas)
    {
      var index := IndexOf(shapes, s);
      if index > -1 {
        shapes := RemoveAt(shapes, index);
        Update();
        return true;
      }
      return false;
    }

    /** Gives the canvas the viewport's size and repaints. */
    method UpdateSize(viewWidth: nat, viewHeight: nat)
      modifies canvas
      ensures canvas.width == viewWidth && canvas.height == viewHeight
      ensures canvas.ops == old(canvas.ops) + RepaintOps(viewWidth, viewHeight, StatesOf(shapes))
      ensures canvas.CurrentContext() == ContextAfterDraws(old(canvas.CurrentContext()), StatesOf(shapes))
    {
      canvas.width := viewWidth;
      canvas.height := viewHeight;
      Update();
    }

    /** Clears the whole canvas, then draws every shape in list order. */
    method Update()
      modifies canvas
      ensures Repainted()
    {
      canvas.ClearRect(0.0, 0.0, canvas.width as real, canvas.height as real);
      ghost var sts := StatesOf(shapes);
      for i := 0 to |shapes|
        invariant canvas.width == old(canvas.width) && canvas.height == old(canvas.height)
        invariant canvas.ops == old(canvas.ops) + RepaintOps(canvas.width, canvas.height, sts[..i])
        invariant canvas.CurrentContext() == ContextAfterDraws(old(canvas.CurrentContext()), sts[..i])
      {
        shapes[i].DrawTo(canvas);
        assert sts[..i + 1][..i] == sts[..i];
      }
      assert sts[..|shapes|] == sts;
    }
  }

  /** The concrete kinds of shape; there is no shape of no kind. */
  datatype Kind = TriangleKind | RectangleKind | CircleKind

  const White: Color := "#FFFFFF"
  const Black: Color := "#000000"

  /** A shape registered with `scene` at construction. Triangles and
      rectangles use `width` and `height`, circles use `radius`. */
  class Shape {
    const scene: Scene
    const kind: Kind
    var x: real
    var y: real
    var color: Color
    var borderColor: Color
    var width: real
    var height: real
    var radius: real

    /** What `DrawTo` reads. */
    function State(): ShapeState
      reads this
    {
      ShapeState(x, y, color, borderColor,
        match kind
        case TriangleKind => TriangleGeom(width, height)
        case RectangleKind => RectangleGeom(width, height)
        case CircleKind => CircleGeom(radius))
    }

    constructor Triangle(scene: Scene, x: real := 50.0, y: real := 50.0,
                         width: real := 50.0, height: real := 50.0,
                         color: Color := White, borderColor: Color := Black)
      modifies scene`shapes, scene.canvas
      ensures this.scene == scene && kind == TriangleKind
      ensures State() == ShapeState(x, y, color, borderColor, TriangleGeom(width, height))
      ensures scene.shapes == old(scene.shapes) + [this]
      ensures scene.Repainted()
    {
      this.scene, kind := scene, TriangleKind;
      this.x, this.y, this.color, this.borderColor := x, y, color, borderColor;
      this.width, this.height, radius := width, height, 0.0;
      new;
      Add();
    }

    constructor Rectangle(scene: Scene, x: real := 50.0, y: real := 50.0,
                          width: real := 100.0, height: real := 50.0,
                          color: Color := White, borderColor: Color := Black)
      modifies scene`shapes, scene.canvas
      ensures this.scene == scene && kind == RectangleKind
      ensures State() == ShapeState(x, y, color, borderColor, RectangleGeom(width, height))
      ensures scene.shapes == old(scene.shapes) + [this]
      ensures scene.Repainted()
    {
      this.scene, kind := scene, RectangleKind;
      this.x, this.y, this.color, this.borderColor := x, y, color, borderColor;
      this.width, this.height, radius := width, height, 0.0;
      new;
      Add();
    }

    constructor Circle(scene: Scene, x: real := 50.0, y: real := 50.0, r: real := 25.0,
                       color: Color := White, borderColor: Color := Black)
      modifies scene`shapes, scene.canvas
      ensures this.scene == scene && kind == CircleKind
      ensures State() == ShapeState(x, y, color, borderColor, CircleGeom(r))
      ensures scene.shapes == old(scene.shapes) + [this]
      ensures scene.Repainted()
    {
      this.scene, kind := scene, CircleKind;
      this.x, this.y, this.color, this.borderColor := x, y, color, borderColor;
      width, height, radius := 0.0, 0.0, r;
      new;
      Add();
    }

    /** Registers this shape with its scene (once more if it is already
        there). */
    method Add()
      modifies scene`shapes, scene.canvas
      ensures scene.shapes == old(scene.shapes) + [this]
      ensures scene.Repainted()
    {
      var _ := scene.AddShape(this);
    }

    /** Removes the first registration of this shape from its scene. */
    method Remove()
      modifies scene`shapes, scene.canvas
      ensures this in old(scene.shapes) ==>
        scene.shapes == RemoveAt(old(scene.shapes), IndexOf(old(scene.shapes), this)) && scene.Repainted()
      ensures this !in old(scene.shapes) ==> scene.shapes == old(scene.shapes) && unchanged(scene.canvas)
    {
      var _ := scene.RemoveShape(this);
    }

    method Update()
      modifies scene.canvas
      ensures scene.Repainted()
    {
      scene.Update();
    }

    method SetPosition(x: real, y: real)
      modifies this`x, this`y, scene.canvas
      ensures State() == old(State()).(x := x, y := y)
      ensures scene.Repainted()
    {
      this.x, this.y := x, y;
      Update();
    }

    method SetColor(c: Color)
      modifies this`color, scene.canvas
      ensures State() == old(State()).(color := c)
      ensures scene.Repainted()
    {
      color := c;
      Update();
    }

    method SetBorderColor(c: Color)
      modifies this`borderColor, scene.canvas
      ensures State() == old(State()).(borderColor := c)
      ensures scene.Repainted()
    {
      borderColor := c;
      Update();
    }

    /** Triangles and rectangles only. */
    method SetWidth(w: real)
      requires kind != CircleKind
      modifies this`width, scene.canvas
      ensures State() == old(State()).(geometry := old(State()).geometry.(width := w))
      ensures scene.Repainted()
    {
      width := w;
      Update();
    }

    /** Triangles and rectangles only. */
    method SetHeight(h: real)
      requires kind != CircleKind
      modifies this`height, scene.canvas
      ensures State() == old(State()).(geometry := old(State()).geometry.(height := h))
      ensures scene.Repainted()
    {
      height := h;
      Update();
    }

    /** Circles only. */
    method SetRadius(r: real)
      requires kind == CircleKind
      modifies this`radius, scene.canvas
      ensures State() == old(State()).(geometry := CircleGeom(r))
      ensures scene.Repainted()
    {
      radius := r;
      Update();
    }

    /** Fills this shape's outline in its colour, then strokes it with the
        border width in its border colour, setting the context's state on the
        way. */
    method DrawTo(canvas: Canvas)
      modifies canvas`path, canvas`fillStyle, canvas`strokeStyle, canvas`lineWidth, canvas`ops
      ensures canvas.ops == old(canvas.ops) + DrawOps(State())
      ensures canvas.CurrentContext() == ContextAfterDraw(State())
    {
      canvas.BeginPath();
      var outline: Path;
      match kind {
        case TriangleKind =>
          outline := [Polyline(TriangleOutline(x, y, width, height))];
        case RectangleKind =>
          canvas.Rect(x, y, width, height);
          outline := canvas.path;
        case CircleKind =>
          canvas.FullCircle(x, y, radius);
          outline := canvas.path;
      }
      assert outline == Outline(State());
      canvas.fillStyle := color;
      canvas.FillPath(outline);
      canvas.lineWidth := BorderWidth;
      canvas.strokeStyle := borderColor;
      canvas.StrokePath(outline);
    }
  }
}
