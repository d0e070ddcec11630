/** PreviewCommand.ts: the single dashed ghost shape shown while a shape tool
    is dragged. It works on the scene alone: it never touches the store and
    never enters the history. */
module PreviewCommand {
  import opened Wrappers
  import opened Types
  import opened Scene

  /** The preview settings and the preview object now shown, if any. */
  datatype Cmd = Cmd(tool: Tool, color: string, width: real, shown: Option<Obj>)

  function Create(tool: Tool, color: string, width: real): (p: Cmd)
    ensures p.shown.None? && p.tool == tool && p.color == color && p.width == width
  {
    Cmd(tool, color, width, None)
  }

  /** `createPreviewShape`: the initial ghost around the cursor position for the three
      shape tools, with a stroke of at least 2. */
  function InitialShape(tool: Tool, color: string, width: real, start: Point): (r: Option<Shape>)
    ensures r.Some? <==> IsShapeTool(tool)
    ensures tool == Rectangle ==>
              && r.value.RectShape?
              && r.value.left == start.x - 10.0 && r.value.top == start.y - 10.0
              && r.value.width == 20.0 && r.value.height == 20.0
              && r.value.left + r.value.width / 2.0 == start.x && r.value.top + r.value.height / 2.0 == start.y
    ensures tool == Circle ==>
              && r.value.CircleShape? && r.value.radius == 10.0
              && r.value.left + r.value.radius == start.x && r.value.top + r.value.radius == start.y
    ensures tool == Line ==>
              && r.value.LineShape?
              && Point(r.value.x1, r.value.y1) == start && r.value.x2 == start.x + 20.0 && r.value.y2 == start.y
    ensures r.Some? ==> !r.value.Foreign? && !r.value.PathShape? && !r.value.TextShape?
    ensures r.Some? && !r.value.LineShape? ==> r.value.fill == "transparent"
    ensures r.Some? ==> r.value.stroke == color && r.value.strokeWidth == Max(2.0, width)
    ensures r.Some? ==> 2.0 <= r.value.strokeWidth && width <= r.value.strokeWidth
  {
    match tool
    case Rectangle =>
      Some(RectShape(start.x - 10.0, start.y - 10.0, 20.0, 20.0, "transparent", color, Max(2.0, width)))
    case Circle =>
      Some(CircleShape(start.x - 10.0, start.y - 10.0, 10.0, "transparent", color, Max(2.0, width)))
    case Line =>
      Some(LineShape(start.x, start.y, start.x + 20.0, start.y, color, Max(2.0, width)))
    case _ => None
  }

  /** `removePreview`: the shown object leaves the scene and the slot empties;
      with nothing shown, nothing changes. */
  function Remove(p: Cmd, scene: seq<Obj>): (r: (Cmd, seq<Obj>))
    ensures r.0 == p.(shown := None)
    ensures p.shown.None? ==> r.1 == scene
    ensures p.shown.Some? ==> multiset(r.1) == multiset(scene) - multiset{p.shown.value}
    ensures p.shown.Some? && p.shown.value in scene ==>
      var i := FirstIndex(scene, p.shown.value);
      r.1 == scene[..i] + scene[i + 1..]
  {
    match p.shown
    case None => (p, scene)
    case Some(o) =>
      RemoveFirstMultiset(scene, o);
      if o in scene then
        RemoveFirstAt(scene, o);
        (p.(shown := None), RemoveFirst(scene, o))
      else
        (p.(shown := None), RemoveFirst(scene, o))
  }

  /** `hasPreview`. */
  predicate HasPreview(p: Cmd) {
    p.shown.Some?
  }

  /** `createPreview`: the old preview goes, then the new ghost (untagged) is
      appended if the tool has one. The result is the slot's new content. */
  function CreatePreview(p: Cmd, scene: seq<Obj>, start: Point): (r: (Cmd, seq<Obj>))
    ensures HasPreview(r.0) <==> IsShapeTool(p.tool)
    ensures r.0.tool == p.tool && r.0.color == p.color && r.0.width == p.width
    ensures var cleared := Remove(p, scene).1;
            if IsShapeTool(p.tool)
            then r.0.shown == Some(Obj(InitialShape(p.tool, p.color, p.width, start).value, None))
                 && r.1 == cleared + [r.0.shown.value]
            else r.1 == cleared
  {
    var cleared := Remove(p, scene);
    match InitialShape(p.tool, p.color, p.width, start)
    case None => cleared
    case Some(s) =>
      var o := Obj(s, None);
      (cleared.0.(shown := Some(o)), cleared.1 + [o])
  }

  /** `updatePreviewShape`: the tool's shape follows the drag; everything
      else about the object is left as it was. */
  function Reshape(tool: Tool, s: Shape, start: Point, end: Point, e: Engine): (r: Shape)
    ensures tool == Rectangle && s.RectShape? ==>
              && r.RectShape?
              && r.left == Min(start.x, end.x) && r.top == Min(start.y, end.y)
              && r.width == Max(3.0, Abs(end.x - start.x)) && r.height == Max(3.0, Abs(end.y - start.y))
    ensures tool == Circle && s.CircleShape? ==>
              && r.CircleShape?
              && r.radius == Max(3.0, e.halfDistance(start, end))
              && r.left + r.radius == (start.x + end.x) / 2.0 && r.top + r.radius == (start.y + end.y) / 2.0
    ensures tool == Line && s.LineShape? ==>
              && r.LineShape?
              && Point(r.x1, r.y1) == start && Point(r.x2, r.y2) == end
    ensures (!(tool == Rectangle && s.RectShape?) && !(tool == Circle && s.CircleShape?) &&
             !(tool == Line && s.LineShape?)) ==> r == s
    ensures r.RectShape? || r.CircleShape? ==> r.fill == s.fill
    ensures !r.Foreign? && !r.PathShape? && !r.TextShape? ==> r.stroke == s.stroke && r.strokeWidth == s.strokeWidth
  {
    if tool == Rectangle && s.RectShape? then
      s.(left := Min(start.x, end.x), top := Min(start.y, end.y),
         width := Max(3.0, Abs(end.x - start.x)), height := Max(3.0, Abs(end.y - start.y)))
    else if tool == Circle && s.CircleShape? then
      var radius := Max(3.0, e.halfDistance(start, end));
      s.(left := (start.x + end.x) / 2.0 - radius, top := (start.y + end.y) / 2.0 - radius, radius := radius)
    else if tool == Line && s.LineShape? then
      s.(x1 := start.x, y1 := start.y, x2 := end.x, y2 := end.y)
    else s
  }

  /** `updatePreview`: with nothing shown, nothing changes; otherwise the shown
      object is reshaped in place. */
  function UpdatePreview(p: Cmd, scene: seq<Obj>, start: Point, end: Point, e: Engine): (r: (Cmd, seq<Obj>))
    ensures p.shown.None? ==> r == (p, scene)
    ensures p.shown.Some? ==>
      && r.0 == p.(shown := Some(p.shown.value.(shape := Reshape(p.tool, p.shown.value.shape, start, end, e))))
      && r.1 == ReplaceFirst(scene, p.shown.value, r.0.shown.value)
    ensures |r.1| == |scene|
  {
    match p.shown
    case None => (p, scene)
    case Some(o) =>
      var o' := o.(shape := Reshape(p.tool, o.shape, start, end, e));
      (p.(shown := Some(o')), ReplaceFirst(scene, o, o'))
  }

  /** Removing a just-appended ghost that had no equal in the scene gives the
      scene back. */
  lemma RemoveAppended(p: Cmd, scene: seq<Obj>, o: Obj)
    requires p.shown.None? && o !in scene
    ensures Remove(p.(shown := Some(o)), scene + [o]) == (p, scene)
  {
    RemoveFirstAfter(scene, o, []);
    assert scene + [o] + [] == scene + [o] && scene + [] == scene;
    var q := p.(shown := Some(o));
    assert Remove(q, scene + [o]) == (q.(shown := None), RemoveFirst(scene + [o], o));
    assert q.(shown := None) == Cmd(p.tool, p.color, p.width, None) == p;
  }

  /** Showing a preview and removing it again gives back the scene, when no
      equal ghost was already on it. */
  lemma CreateThenRemoveRestores(p: Cmd, scene: seq<Obj>, start: Point)
    requires p.shown.None?
    requires InitialShape(p.tool, p.color, p.width, start).Some? ==>
      Obj(InitialShape(p.tool, p.color, p.width, start).value, None) !in scene
    ensures var r1 := CreatePreview(p, scene, start);
            Remove(r1.0, r1.1) == (p, scene)
  {
    var r1 := CreatePreview(p, scene, start);
    if IsShapeTool(p.tool) {
      var o := r1.0.shown.value;
      assert r1 == (p.(shown := Some(o)), scene + [o]);
      RemoveAppended(p, scene, o);
    }
  }

  /** A second `createPreview` replaces the first ghost: the scene holds the
      original objects and the newest ghost only. */
  lemma CreateTwiceKeepsOne(p: Cmd, scene: seq<Obj>, a: Point, b: Point)
    requires p.shown.None?
    ensures var r1 := CreatePreview(p, scene, a);
            var r2 := CreatePreview(r1.0, r1.1, b);
            && r2.0.shown == CreatePreview(p, scene, b).0.shown
            && multiset(r2.1) == multiset(CreatePreview(p, scene, b).1)
  {
    var r1 := CreatePreview(p, scene, a);
    if IsShapeTool(p.tool) {
      var o := r1.0.shown.value;
      RemoveFirstMultiset(scene + [o], o);
      assert multiset(RemoveFirst(scene + [o], o)) == multiset(scene);
    }
  }

  /** Updating twice with the same drag is updating once. */
  lemma UpdateIdempotent(p: Cmd, scene: seq<Obj>, start: Point, end: Point, e: Engine)
    ensures var r1 := UpdatePreview(p, scene, start, end, e);
            UpdatePreview(r1.0, r1.1, start, end, e) == r1
  {
    var r1 := UpdatePreview(p, scene, start, end, e);
    if p.shown.Some? {
      var o' := r1.0.shown.value;
      assert Reshape(p.tool, o'.shape, start, end, e) == o'.shape;
      ReplaceFirstSame(r1.1, o');
    }
  }

  /** Replacing an element by itself changes nothing. */
  lemma {:induction false} ReplaceFirstSame<T>(s: seq<T>, x: T)
    ensures ReplaceFirst(s, x, x) == s
  {
    if s != [] && s[0] != x {
      ReplaceFirstSame(s[1..], x);
    }
  }
}
