/** Clients of the scene that check, from the contracts alone, the behaviour a
    user of the library sees. */
module Scenarios {
  import opened Render
  import opened Lists
  import opened Drawing

  /** A new rectangle is registered and the repaint that follows strokes the
      rectangle spanning (10, 10) to (40, 30). */
  method RectangleIsRegisteredAndDrawn()
  {
    var scene := new Scene(800, 600);
    var r := new Shape.Rectangle(scene, 10.0, 10.0, 30.0, 20.0);
    assert scene.shapes == [r];
    var ops := scene.canvas.ops;
    assert ops == RepaintOps(800, 600, []) + RepaintOps(800, 600, [r.State()]);
    RepaintAt(800, 600, [r.State()], 0);
    var drawn := ops[|ops| - 2..];
    assert drawn == DrawOps(r.State());
    assert drawn[0].path == [RectSub(10.0, 10.0, 30.0, 20.0)];
    assert drawn[0].style == White && drawn[1].style == Black;
  }

  /** Changing a circle's radius repaints once more; the centre stays. */
  method CircleRadiusChange()
  {
    var scene := new Scene(800, 600);
    var c := new Shape.Circle(scene, 0.0, 0.0, 5.0);
    var before := |scene.canvas.ops|;
    c.SetRadius(10.0);
    assert |scene.canvas.ops| == before + |RepaintOps(800, 600, [c.State()])|;
    assert c.State() == ShapeState(0.0, 0.0, White, Black, CircleGeom(10.0));
    assert scene.canvas.ops[before..] == RepaintOps(800, 600, [c.State()]);
  }

  /** Removing the first of two shapes leaves only the second, which is all
      the next repaint draws. */
  method RemoveFirstOfTwo()
  {
    var scene := new Scene(800, 600);
    var t := new Shape.Triangle(scene);
    var r := new Shape.Rectangle(scene);
    assert scene.shapes == [t, r];
    var before := scene.canvas.ops;
    var ok := scene.RemoveShape(t);
    assert ok;
    assert scene.shapes == [r];
    assert scene.canvas.ops == before + RepaintOps(800, 600, [r.State()]);
  }

  /** Removing a shape that was never added fails and changes nothing. */
  method RemoveAbsent()
  {
    var scene := new Scene(800, 600);
    var other := new Scene(800, 600);
    var c := new Shape.Circle(other);
    var before := scene.canvas.ops;
    var ok := scene.RemoveShape(c);
    assert !ok && scene.shapes == [] && scene.canvas.ops == before;
  }

  /** Setting the same position twice repaints twice, and both repaints
      issue the same commands. */
  method SamePositionTwice()
  {
    var scene := new Scene(800, 600);
    var s := new Shape.Rectangle(scene);
    var start := scene.canvas.ops;
    s.SetPosition(5.0, 7.0);
    var once := scene.canvas.ops;
    s.SetPosition(5.0, 7.0);
    var repaint := RepaintOps(800, 600, [s.State()]);
    assert once == start + repaint;
    assert scene.canvas.ops == once + repaint;
  }
}
