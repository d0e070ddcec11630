/** ShapeCommand.ts: a rectangle, circle or line drawn between two points. */
module ShapeCommand {
  import opened Wrappers
  import opened JsonData
  import opened Types
  import opened Scene
  import opened BaseCommand

  /** The command: its shared state, the drawing data it was built from, and
      the engine object it created (`fabricObject`). */
  datatype Cmd = Cmd(base: Base, data: DrawingData, obj: Option<Obj>)

  function Create(ctx: Context, data: DrawingData, now: nat): (c: Cmd)
    ensures !c.base.executed && c.obj.None? && c.data == data
    ensures c.base == BaseCommand.Create(ctx, data.objectId, now)
  {
    Cmd(BaseCommand.Create(ctx, data.objectId, now), data, None)
  }

  /** `createRectangle`: the box spanned by the two points, at least 5 units
      along each axis, with a transparent fill. */
  function RectangleBetween(start: Point, end: Point, color: string, width: real): (r: Shape)
    ensures r.RectShape? && r.fill == "transparent" && r.stroke == color && r.strokeWidth == width
    ensures r.left <= start.x && r.left <= end.x && (r.left == start.x || r.left == end.x)
    ensures r.top <= start.y && r.top <= end.y && (r.top == start.y || r.top == end.y)
    ensures start.x <= r.left + r.width && end.x <= r.left + r.width
    ensures start.y <= r.top + r.height && end.y <= r.top + r.height
    ensures 5.0 <= r.width && 5.0 <= r.height
    ensures 5.0 <= Abs(end.x - start.x) ==> r.left + r.width == Max(start.x, end.x)
    ensures 5.0 <= Abs(end.y - start.y) ==> r.top + r.height == Max(start.y, end.y)
  {
    RectShape(Min(start.x, end.x), Min(start.y, end.y),
         Max(5.0, Abs(end.x - start.x)), Max(5.0, Abs(end.y - start.y)),
         "transparent", color, width)
  }

  /** `createCircle`: the circle whose centre is the midpoint of the two
      points; the radius comes from the engine's square root. */
  function CircleBetween(start: Point, end: Point, color: string, width: real, e: Engine): (r: Shape)
    ensures r.CircleShape? && r.fill == "transparent" && r.stroke == color && r.strokeWidth == width
    ensures r.radius == e.halfDistance(start, end)
    ensures r.left + r.radius == (start.x + end.x) / 2.0
    ensures r.top + r.radius == (start.y + end.y) / 2.0
  {
    var radius := e.halfDistance(start, end);
    CircleShape((start.x + end.x) / 2.0 - radius, (start.y + end.y) / 2.0 - radius,
           radius, "transparent", color, width)
  }

  /** `createLine`: the segment between the two points, as given. */
  function LineBetween(start: Point, end: Point, color: string, width: real): (r: Shape)
    ensures r.LineShape? && r.stroke == color && r.strokeWidth == width
    ensures Point(r.x1, r.y1) == start && Point(r.x2, r.y2) == end
  {
    LineShape(start.x, start.y, end.x, end.y, color, width)
  }

  /** `createShape`: an object exactly when both points are present and the
      tool is one of the three shape tools. */
  function CreateShape(data: DrawingData, e: Engine): (r: Option<Shape>)
    ensures r.Some? <==> data.startPoint.Some? && data.endPoint.Some? && IsShapeTool(data.tool)
    ensures r.Some? ==> (r.value.RectShape? <==> data.tool == Rectangle)
    ensures r.Some? ==> (r.value.CircleShape? <==> data.tool == Circle)
    ensures r.Some? ==> (r.value.LineShape? <==> data.tool == Line)
  {
    if data.startPoint.None? || data.endPoint.None? then None
    else
      var s, t := data.startPoint.value, data.endPoint.value;
      match data.tool
      case Rectangle => Some(RectangleBetween(s, t, data.color, data.width))
      case Circle => Some(CircleBetween(s, t, data.color, data.width, e))
      case Line => Some(LineBetween(s, t, data.color, data.width))
      case _ => None
  }

  /** `execute`: guarded by `isExecuted`; when a shape is built it is tagged,
      added, and its serialisation written under the command's key. */
  function Execute(c: Cmd, w: World, e: Engine): (r: (Cmd, World))
    ensures c.base.executed ==> r == (c, w)
    ensures !c.base.executed && CreateShape(c.data, e).None? ==> r.1 == w && !r.0.base.executed
    ensures !c.base.executed && CreateShape(c.data, e).Some? ==>
      var o := Obj(CreateShape(c.data, e).value, Some(c.base.objectId));
      && r.0.base.executed && r.0.obj == Some(o)
      && r.1.scene == w.scene + [o]
      && (e.online ==> Key(c.base) in r.1.remote && r.1.remote[Key(c.base)] == Clean(e.toObject(o.shape)))
      && (forall k | k != Key(c.base) :: (k in r.1.remote <==> k in w.remote))
      && (forall k | k != Key(c.base) && k in w.remote :: r.1.remote[k] == w.remote[k])
    ensures r.0.data == c.data && r.0.base.objectId == c.base.objectId && r.0.base.ctx == c.base.ctx
  {
    if c.base.executed then (c, w)
    else
      match CreateShape(c.data, e)
      case None => (c.(obj := None), w)
      case Some(shape) =>
        var (o, w1) := AddToCanvas(c.base, w, shape);
        var w2 := SaveToRemote(c.base, w1, e, e.toObject(shape));
        (c.(obj := Some(o), base := c.base.(executed := true)), w2)
  }

  /** `undo`: guarded by `isExecuted`; removes the object, deletes the key and
      clears the flag. */
  function Undo(c: Cmd, w: World, e: Engine): (r: (Cmd, World))
    ensures !c.base.executed ==> r == (c, w)
    ensures c.base.executed ==>
      && !r.0.base.executed
      && r.1.scene == (if c.obj.Some? then RemoveFirst(w.scene, c.obj.value) else RemoveFirstTagged(w.scene, c.base.objectId))
      && (e.online ==> Key(c.base) !in r.1.remote)
      && (forall k | k != Key(c.base) :: (k in r.1.remote <==> k in w.remote))
      && (forall k | k != Key(c.base) && k in w.remote :: r.1.remote[k] == w.remote[k])
    ensures r.0.data == c.data && r.0.obj == c.obj && r.0.base.objectId == c.base.objectId && r.0.base.ctx == c.base.ctx
  {
    if !c.base.executed then (c, w)
    else
      var w1 := RemoveFromCanvas(c.base, w, c.obj);
      (c.(base := c.base.(executed := false)), RemoveFromRemote(c.base, w1, e))
  }

  /** `getType`. */
  function TypeName(c: Cmd): string {
    "shape_" + ToolName(c.data.tool)
  }

  /** The type tag tells the tools apart and never collides with the tags of
      the other commands, so counting by tag counts one tool's shapes. */
  lemma TypeNameIdentifiesTool(c: Cmd, d: Cmd)
    ensures TypeName(c) == TypeName(d) <==> c.data.tool == d.data.tool
    ensures TypeName(c) !in {"path", "text", "eraser", "clear"}
  {
    var p := "shape_";
    if TypeName(c) == TypeName(d) {
      assert (p + ToolName(c.data.tool))[|p|..] == ToolName(c.data.tool);
      assert (p + ToolName(d.data.tool))[|p|..] == ToolName(d.data.tool);
    }
  }

  /** The tool and style properties of `getData`'s record. */
  function StyleFields(data: DrawingData): (f: seq<Field>)
    ensures Lookup(f, "tool") == Some(Str(ToolName(data.tool)))
    ensures Lookup(f, "color") == Some(Str(data.color))
    ensures Lookup(f, "width") == Some(Num(data.width))
    ensures Lookup(f, "startPoint").None? && Lookup(f, "endPoint").None? && Lookup(f, "objectId").None?
  {
    var withTool := Assign([], "tool", Str(ToolName(data.tool)));
    var withColor := Assign(withTool, "color", Str(data.color));
    Assign(withColor, "width", Num(data.width))
  }

  /** `getData`: the drawing data and the command's id. */
  function GetData(c: Cmd): (j: Json)
    ensures j.Object? && Lookup(j.fields, "objectId") == Some(Str(c.base.objectId))
    ensures Lookup(j.fields, "tool") == Some(Str(ToolName(c.data.tool)))
    ensures Lookup(j.fields, "color") == Some(Str(c.data.color))
    ensures Lookup(j.fields, "width") == Some(Num(c.data.width))
    ensures Lookup(j.fields, "startPoint") == Some(PointJson(c.data.startPoint))
    ensures Lookup(j.fields, "endPoint") == Some(PointJson(c.data.endPoint))
  {
    var withStart := Assign(StyleFields(c.data), "startPoint", PointJson(c.data.startPoint));
    var withEnd := Assign(withStart, "endPoint", PointJson(c.data.endPoint));
    Object(Assign(withEnd, "objectId", Str(c.base.objectId)))
  }

  /** A tool outside rectangle/circle/line (for instance `arrow`) or a missing
      point builds nothing: the command stays unexecuted and the world is
      unchanged. */
  lemma NoShapeNoEffect(c: Cmd, w: World, e: Engine)
    requires !c.base.executed
    requires !IsShapeTool(c.data.tool) || c.data.startPoint.None? || c.data.endPoint.None?
    ensures Execute(c, w, e).1 == w && !Execute(c, w, e).0.base.executed
  {
  }

  /** The object a successful execute adds. */
  function Drawn(c: Cmd, e: Engine): Obj
    requires CreateShape(c.data, e).Some?
  {
    Obj(CreateShape(c.data, e).value, Some(c.base.objectId))
  }

  /** First execute then undo gives back the world exactly, provided the key
      was not in use and the object was not already on the canvas. */
  lemma ExecuteThenUndoRestores(c: Cmd, w: World, e: Engine)
    requires !c.base.executed && CreateShape(c.data, e).Some?
    requires Key(c.base) !in w.remote && Drawn(c, e) !in w.scene
    ensures var (c1, w1) := Execute(c, w, e); Undo(c1, w1, e).1 == w
  {
    var (c1, w1) := Execute(c, w, e);
    var o := Drawn(c, e);
    RemoveFirstAfter(w.scene, o, []);
    assert w.scene + [o] + [] == w.scene + [o];
    assert w.scene + [] == w.scene;
  }

  /** What undo leaves after a first execute: the object gone from the
      scene and the key gone from the store. */
  lemma UndoAfterExecute(c: Cmd, w: World, e: Engine)
    requires !c.base.executed && CreateShape(c.data, e).Some?
    requires Drawn(c, e) !in w.scene
    ensures var (c1, w1) := Execute(c, w, e);
            Undo(c1, w1, e) == (c.(obj := Some(Drawn(c, e))),
                                World(w.scene, if e.online then w.remote - {Key(c.base)} else w.remote))
  {
    var o := Drawn(c, e);
    RemoveFirstAfter(w.scene, o, []);
    assert w.scene + [o] + [] == w.scene + [o];
    assert w.scene + [] == w.scene;
    if e.online {
      var k := Key(c.base);
      assert w.remote[k := Clean(e.toObject(o.shape))] - {k} == w.remote - {k};
    }
  }

  /** Undo followed by redo (a second execute) reproduces the command and the
      world the first execute produced. */
  lemma UndoThenRedoReproduces(c: Cmd, w: World, e: Engine)
    requires !c.base.executed && CreateShape(c.data, e).Some?
    requires Drawn(c, e) !in w.scene
    ensures var (c1, w1) := Execute(c, w, e);
            var (c2, w2) := Undo(c1, w1, e);
            Execute(c2, w2, e) == (c1, w1)
  {
    UndoAfterExecute(c, w, e);
    var o, k := Drawn(c, e), Key(c.base);
    var r := if e.online then w.remote - {k} else w.remote;
    var v := Clean(e.toObject(o.shape));
    assert e.online ==> r[k := v] == w.remote[k := v];
  }

  /** Store failures are caught: whether the store accepts requests changes
      neither the command's state nor the scene, and a failing store is left
      as it was. */
  lemma StoreFailureIsContained(c: Cmd, w: World, e: Engine)
    ensures Execute(c, w, e.(online := false)).0 == Execute(c, w, e.(online := true)).0
    ensures Execute(c, w, e.(online := false)).1.scene == Execute(c, w, e.(online := true)).1.scene
    ensures Execute(c, w, e.(online := false)).1.remote == w.remote
    ensures Undo(c, w, e.(online := false)).0 == Undo(c, w, e.(online := true)).0
    ensures Undo(c, w, e.(online := false)).1.scene == Undo(c, w, e.(online := true)).1.scene
    ensures Undo(c, w, e.(online := false)).1.remote == w.remote
  {
  }
}
