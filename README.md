# drawing.js — a verified model of the scene manager

drawing.js is a small retained-mode 2D scene manager for an HTML canvas. A
`Drawing` (here `Scene`) owns a canvas and an ordered list of shapes; shapes
(`Triangle`, `Rectangle`, `Circle`, all built on an abstract `Shape` holding a
position, a fill colour and a border colour) register themselves with the scene
when constructed. Every change — adding a shape, successfully removing one
(removing a shape that is not listed changes nothing), resizing the canvas,
calling any shape setter — repaints the whole scene: clear the canvas,
then let each shape draw itself, in list order, as a path filled in its colour
and stroked with width 2 in its border colour.

The model has three modules:

- `Lists` (lists.dfy): the array operations the shape list uses, `indexOf`
  (search by identity) and `splice(i, 1)`, as functions, with the lemmas
  about removing the first occurrence.
- `Render` (render.dfy): the pure part of drawing. Each shape's outline, the
  painting commands of one `drawTo`, and the commands of one repaint, as
  values; lemmas that a repaint clears once and then draws each shape exactly
  once in list order, and that the commands determine the scene.
- `Drawing` (drawing.dfy): the imperative part. `Canvas` stands for the host
  canvas and its 2D context: size, drawing state (fill style, stroke style,
  line width, current path) and a log `ops` of the painting commands issued.
  `Scene` and `Shape` are classes whose methods update their fields in place
  and call back into the repaint, as the source does. Shape identity is
  object identity: the list holds references, so removal is by reference, and
  a shape added twice appears twice.

scenarios.dfy holds client methods that derive, from the contracts alone,
the behaviour of a few typical uses: a new rectangle is registered and drawn,
a radius change repaints once more, removing the first of two shapes,
removing an absent shape, and setting the same position twice.

The abstract `Shape` cannot be instantiated in the model because `Shape` has
no constructor of its own: its only constructors are `Triangle`, `Rectangle`
and `Circle`, and its `kind` is one of those three.

## Model

| member | source | states |
|---|---|---|
| `Lists.IndexOf` | drawing.js:33 | result is -1 exactly when the shape is absent; otherwise it is a position holding the shape with no earlier occurrence |
| `Lists.RemoveAt` | drawing.js:35 | `splice(i, 1)`: one element shorter, elements before `i` stay in place, later ones move one place forward |
| `Lists.RemoveFirstMultiset` | drawing.js:32-38 | removing the first occurrence takes away exactly one copy of the shape and nothing else |
| `Lists.RemoveFirstKeepsLaterCopies` | drawing.js:32-38 | the number of copies of the removed shape drops by exactly one, so later duplicates stay |
| `Lists.IndexOfAppend` | drawing.js:27-33 | appending to the list does not move the first occurrence of a shape already present |
| `Lists.RemoveAppended` | drawing.js:26-38 | removing a shape just appended to a list not containing it gives the list back (add and remove are inverse) |
| `Lists.RemoveAppendedDuplicate` | drawing.js:26-38 | adding a shape already present and then removing it deletes the earlier copy and keeps the new last one |
| `Render.TriangleOutline` | drawing.js:128-132 | the triangle path starts at (x, y) and returns there with a final line, has a horizontal base of length width, its apex above the base's midpoint and height/2 above the base |
| `Render.TriangleIsIsosceles` | drawing.js:128-132 | the apex is equally far from both ends of the base |
| `Render.Outline` | drawing.js:128-132 | each kind's path is one subpath: the triangle's vertex list, the rectangle `rect(x, y, width, height)` (also drawing.js:166-170), or the full arc about (x, y) with radius r (also drawing.js:198-204) |
| `Render.ContextAfterDraw` | drawing.js:126-140 | after one drawTo the context holds the shape's fill and border colours and line width 2; its current path is empty after a triangle (drawn along a separate path object) and is the outline otherwise (also drawing.js:165-176, 197-210) |
| `Render.DrawOps` | drawing.js:123-211 | one drawTo fills the shape's outline in its fill colour, then strokes the same outline with width 2 in its border colour |
| `Render.DrawAll` | drawing.js:51-53 | drawing n shapes issues 2n commands and never clears the canvas |
| `Render.RepaintOps` | drawing.js:48-54 | a repaint first clears the whole canvas (0, 0, width, height) and clears nothing afterwards |
| `Render.DrawAllAt` | drawing.js:51-53 | the i-th pair of drawing commands is exactly the i-th shape's drawTo |
| `Render.RepaintAt` | drawing.js:48-54 | after the clear, slot i of a repaint holds shape i's drawTo: every shape drawn once, in list order |
| `Render.DrawOpsInjective` | drawing.js:123-211 | the commands of drawTo determine every field of the shape drawn |
| `Render.RepaintDeterminesScene` | drawing.js:48-54 | equal repaints come from equal canvas sizes and equal shape lists in the same order |
| `Drawing.StatesOf` | drawing.js:51-53 | one drawn state per listed shape, in list order |
| `Drawing.Scene.constructor` | drawing.js:8-24 | a new scene has a fresh canvas of the viewport's size, no shapes, and one repaint in its log |
| `Drawing.Scene.AddShape` | drawing.js:26-30 | appends the shape as the new last element, keeps every earlier element, returns true, repaints exactly once |
| `Drawing.Scene.RemoveShape` | drawing.js:32-40 | returns true iff the shape is listed; then deletes the element at its first index and repaints once; otherwise leaves list and canvas unchanged |
| `Drawing.Scene.UpdateSize` | drawing.js:42-46 | sets the canvas to the given viewport size, then performs one full repaint at that size |
| `Drawing.Scene.Update` | drawing.js:48-54 | appends exactly the repaint commands of the current list to the log, keeps the canvas size, leaves the drawing state of the last shape drawn |
| `Drawing.Shape.Triangle` | drawing.js:104-110 | stores the given (default 50, 50, 50, 50, white, black) fields and appends the triangle to the scene, with one repaint |
| `Drawing.Shape.Rectangle` | drawing.js:144-150 | stores the given (default 50, 50, 100, 50, white, black) fields and appends the rectangle to the scene, with one repaint |
| `Drawing.Shape.Circle` | drawing.js:181-186 | stores the given (default 50, 50, radius 25, white, black) fields and appends the circle to the scene, with one repaint |
| `Drawing.Shape.Add` | drawing.js:69-72 | appends this shape to its scene's list and repaints |
| `Drawing.Shape.Remove` | drawing.js:74-76 | removes the first registration of this shape and repaints, or changes nothing when it is not registered |
| `Drawing.Shape.Update` | drawing.js:78-80 | one full repaint of the shape's scene |
| `Drawing.Shape.SetPosition` | drawing.js:86-90 | changes x and y only, then one repaint |
| `Drawing.Shape.SetColor` | drawing.js:92-95 | changes the fill colour only, then one repaint |
| `Drawing.Shape.SetBorderColor` | drawing.js:97-100 | changes the border colour only, then one repaint |
| `Drawing.Shape.SetWidth` | drawing.js:112-115 | (triangle, rectangle) changes the width only, then one repaint |
| `Drawing.Shape.SetHeight` | drawing.js:117-120 | (triangle, rectangle) changes the height only, then one repaint |
| `Drawing.Shape.SetRadius` | drawing.js:189-192 | (circle) changes the radius only, then one repaint |
| `Drawing.Shape.DrawTo` | drawing.js:123-211 | setting the context state step by step, appends exactly DrawOps of the shape's fields to the log and leaves the context in the state those commands leave |

`Drawing.Scene.Repainted` is the two-state predicate behind "repaints
exactly once" in every mutator's contract: the canvas keeps its size, its log
grows by exactly `RepaintOps` of the current list, and its context ends in the
state `ContextAfterDraws` gives.

The members of `Drawing.Canvas` stand for the host's canvas API and have no
rows: they model no line of drawing.js.

`SetWidth` and `SetHeight` model both the triangle's (drawing.js:112-120) and
the rectangle's (drawing.js:152-160) identical setters.

## Left out

- Finding or creating the page's canvas in the `Drawing` constructor (drawing.js:8-14) is DOM work; the model's scene always creates a fresh canvas. Line 10 of the source assigns `this.canvas` rather than `this._canvas`, so an existing page canvas is never reused either; the model agrees.
- The `window.drawing` singleton, its lazy creation in `add` (drawing.js:17-18, 70) and the resize listener (drawing.js:19-21) are replaced by passing the scene to each shape constructor and by calling `UpdateSize` with the viewport size as arguments; reading `window.innerWidth`/`innerHeight` (drawing.js:43-44) becomes those arguments.
- The canvas itself is a command log, not pixels. Only the calls that paint (`clearRect`, `fill`, `stroke`) are logged; `closePath` after the stroke paints nothing and is not modelled. Resizing a real canvas also wipes its bitmap and resets its context state; `UpdateSize` records neither and relies on the repaint that follows, which sets every style before use.
- Coordinates and sizes are exact reals; JavaScript floating-point rounding is not modelled. The circle's `arc(x, y, r, 0, 2π, false)` is recorded as a full-turn arc, without `Math.PI`.
- The base `drawTo` that reports a missing override through `console.error` (drawing.js:82-84) cannot be reached: every model shape is one of the three kinds, each with its own drawing.
- Colour strings are opaque. The host context ignores a `fillStyle` or `strokeStyle` value it cannot parse and keeps painting with the previous style; that rejection is not modelled, and the log records the colour as assigned.
- In the model every shape has `width`, `height` and `radius` fields; a circle's width and height and a triangle's or rectangle's radius are set to 0 and never read. Calling `SetWidth`/`SetHeight` on a circle or `SetRadius` on another kind is excluded by a precondition, since those methods do not exist on those classes in the source.
- `for (let i in this._shapes)` (drawing.js:51) is modelled as a loop over the indices in order, which is what it does on a plain array.
- The `load` handler that registers the classes with `window.chaos` and styles the page body (drawing.js:214-221) is host glue.
- Drawing.Shape.Circle: accepts any real radius. In the host, `arc` throws an `IndexSizeError` for a negative radius; since `new Circle(x, y, r)` pushes the shape (drawing.js:27) before the repaint reaches its `drawTo`, the source's constructor throws with the circle already listed. From then on, every repaint stops at that circle: shapes after it are not drawn again, and `addShape`, every setter and `updateSize` throw instead of returning. The model promises a normal return and a full repaint for every radius.
- Drawing.Shape.SetRadius: for a negative radius the source's repaint throws at this circle (the same `arc` exception). Shapes after it in the list are not drawn. The model records a full repaint instead.
- Drawing.Shape.DrawTo: for a circle with a negative radius the source's `arc` throws before any fill or stroke. The model appends both commands, with the negative radius recorded in the `FullArc` path. `Drawing.Scene.Update` and every member that repaints inherit this: a full repaint is promised for every list.
