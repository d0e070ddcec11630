/** whiteboard-manager.ts: the drawing controller. It keeps the tool, colour
    and width, maps the tool to the canvas's input mode and brush, guards
    which gestures become commands, runs them through the history, and owns
    the preview. */
module WhiteboardManager {
  import opened Wrappers
  import opened JsonData
  import opened Types
  import opened Scene
  import opened Commands
  import CM = CommandManager
  import ShapeCommand
  import PathCommand
  import TextCommand
  import EraserCommand
  import ClearCommand
  import PreviewCommand
  import BaseCommand
  import RemoteKeys

  /** The canvas flags `updateCanvasMode` sets, and the cursor style. */
  datatype CanvasMode = CanvasMode(drawing: bool, selection: bool, skipTargetFind: bool, cursor: string)

  /** `canvas.freeDrawingBrush`'s colour and width. */
  datatype Brush = Brush(color: string, width: real)

  /** `getCurrentSettings`'s record. */
  datatype Settings = Settings(tool: Tool, color: string, width: real)

  /** The controller: its context, the world it draws on, the canvas mode and
      brush it writes, its settings, the preview command and the history. */
  datatype Board = Board(
    ctx: Context,
    world: World,
    mode: CanvasMode,
    brush: Option<Brush>,
    tool: Tool,
    color: string,
    width: real,
    preview: Option<PreviewCommand.Cmd>,
    history: CM.History<Command>)

  /** The constructor: pen, black, width 5, no preview command and a history
      of the default bound. The canvas's own mode and brush are as given. */
  function Create(ctx: Context, world: World, mode: CanvasMode, brush: Option<Brush>): (b: Board)
    ensures GetCurrentSettings(b) == Settings(Pen, "#000000", 5.0)
    ensures b.preview.None? && b.world == world && b.mode == mode && b.brush == brush
    ensures b.history == CM.Create(CM.DefaultMaxSize)
    ensures Valid(b)
  {
    Board(ctx, world, mode, brush, Pen, "#000000", 5.0, None, CM.Create(CM.DefaultMaxSize))
  }

  /** The states the controller keeps to: a valid history, and a preview
      command built for the current tool. */
  predicate Valid(b: Board) {
    CM.Valid(b.history) && (b.preview.Some? ==> b.preview.value.tool == b.tool)
  }

  /** `getCurrentSettings`. */
  function GetCurrentSettings(b: Board): (s: Settings)
    ensures s.tool == b.tool && s.color == b.color && s.width == b.width
  {
    Settings(b.tool, b.color, b.width)
  }

  /** `updateCanvasMode`: freehand capture for pen and eraser, native
      selection for select, neither for the rest; targets are found only
      under select. */
  function ModeFor(t: Tool): (m: CanvasMode)
    ensures m.drawing <==> t == Pen || t == Tool.Eraser
    ensures m.selection <==> t == Select
    ensures m.skipTargetFind <==> t != Select
    ensures m.cursor == if t == Select then "default" else "crosshair"
  {
    match t
    case Pen => CanvasMode(true, false, true, "crosshair")
    case Eraser => CanvasMode(true, false, true, "crosshair")
    case Select => CanvasMode(false, true, false, "default")
    case _ => CanvasMode(false, false, true, "crosshair")
  }

  /** `updateBrushSettings`: with a brush, the eraser paints white at twice
      the width and the pen paints the current colour and width; other tools
      leave the brush as it is. */
  function BrushFor(t: Tool, color: string, width: real, brush: Option<Brush>): (r: Option<Brush>)
    ensures brush.None? ==> r.None?
    ensures brush.Some? && t == Tool.Eraser ==> r == Some(Brush("#FFFFFF", 2.0 * width))
    ensures brush.Some? && t == Pen ==> r == Some(Brush(color, width))
    ensures t != Tool.Eraser && t != Pen ==> r == brush
  {
    if brush.None? then None
    else if t == Tool.Eraser then Some(Brush("#FFFFFF", width * 2.0))
    else if t == Pen then Some(Brush(color, width))
    else brush
  }

  /** `updatePreviewCommand`: a fresh preview command for the current
      settings; whatever the old one showed stays on the canvas. */
  function FreshPreview(b: Board): (r: Board)
    ensures r.preview.Some? && !PreviewCommand.HasPreview(r.preview.value)
    ensures r.preview.value.tool == b.tool && r.preview.value.color == b.color && r.preview.value.width == b.width
    ensures r.(preview := b.preview) == b
  {
    b.(preview := Some(PreviewCommand.Create(b.tool, b.color, b.width)))
  }

  /** `setTool`: stores the tool, sets the canvas mode, replaces the preview
      command. The brush is not touched. */
  function SetTool(b: Board, t: Tool): (r: Board)
    ensures GetCurrentSettings(r) == Settings(t, b.color, b.width)
    ensures r.mode == ModeFor(t) && r.brush == b.brush
    ensures r.preview == Some(PreviewCommand.Create(t, b.color, b.width))
    ensures r.world == b.world && r.history == b.history
  {
    FreshPreview(b.(tool := t, mode := ModeFor(t)))
  }

  /** `setColor`: stores the colour, updates the brush, replaces the preview
      command. */
  function SetColor(b: Board, color: string): (r: Board)
    ensures GetCurrentSettings(r) == Settings(b.tool, color, b.width)
    ensures r.brush == BrushFor(b.tool, color, b.width, b.brush) && r.mode == b.mode
    ensures r.preview == Some(PreviewCommand.Create(b.tool, color, b.width))
    ensures r.world == b.world && r.history == b.history
  {
    FreshPreview(b.(color := color, brush := BrushFor(b.tool, color, b.width, b.brush)))
  }

  /** `setWidth`: stores the width, updates the brush, replaces the preview
      command. */
  function SetWidth(b: Board, width: real): (r: Board)
    ensures GetCurrentSettings(r) == Settings(b.tool, b.color, width)
    ensures r.brush == BrushFor(b.tool, b.color, width, b.brush) && r.mode == b.mode
    ensures r.preview == Some(PreviewCommand.Create(b.tool, b.color, width))
    ensures r.world == b.world && r.history == b.history
  {
    FreshPreview(b.(width := width, brush := BrushFor(b.tool, b.color, width, b.brush)))
  }

  /** `startPreview`: nothing for a tool without a preview shape or before
      any setter built a preview command; otherwise `createPreview`. */
  function StartPreview(b: Board, start: Point): (r: (Board, Option<Obj>))
    ensures !IsShapeTool(b.tool) || b.preview.None? ==> r == (b, None)
    ensures IsShapeTool(b.tool) && b.preview.Some? ==>
      var made := PreviewCommand.CreatePreview(b.preview.value, b.world.scene, start);
      && r.0 == b.(preview := Some(made.0), world := b.world.(scene := made.1))
      && r.1 == made.0.shown
  {
    if !IsShapeTool(b.tool) || b.preview.None? then (b, None)
    else
      var made := PreviewCommand.CreatePreview(b.preview.value, b.world.scene, start);
      (b.(preview := Some(made.0), world := b.world.(scene := made.1)), made.0.shown)
  }

  /** `updatePreview`. */
  function UpdatePreview(b: Board, start: Point, end: Point, e: Engine): (r: Board)
    ensures b.preview.None? ==> r == b
    ensures b.preview.Some? ==>
      var moved := PreviewCommand.UpdatePreview(b.preview.value, b.world.scene, start, end, e);
      r == b.(preview := Some(moved.0), world := b.world.(scene := moved.1))
  {
    if b.preview.None? then b
    else
      var moved := PreviewCommand.UpdatePreview(b.preview.value, b.world.scene, start, end, e);
      b.(preview := Some(moved.0), world := b.world.(scene := moved.1))
  }

  /** `endPreview`. */
  function EndPreview(b: Board): (r: Board)
    ensures b.preview.None? ==> r == b
    ensures b.preview.Some? ==>
      var gone := PreviewCommand.Remove(b.preview.value, b.world.scene);
      r == b.(preview := Some(gone.0), world := b.world.(scene := gone.1))
  {
    if b.preview.None? then b
    else
      var gone := PreviewCommand.Remove(b.preview.value, b.world.scene);
      b.(preview := Some(gone.0), world := b.world.(scene := gone.1))
  }

  /** `hasPreview`. */
  predicate HasPreview(b: Board) {
    b.preview.Some? && PreviewCommand.HasPreview(b.preview.value)
  }

  /** What running a command does, as the history sees it. The model's
      commands do not throw. */
  function RunExecute(e: Engine): (Command, World) -> CM.Attempt<Command, World> {
    (c: Command, w: World) => var r := Commands.Execute(c, w, e); CM.Completed(r.0, r.1)
  }

  function RunUndo(e: Engine): (Command, World) -> CM.Attempt<Command, World> {
    (c: Command, w: World) => var r := Commands.Undo(c, w, e); CM.Completed(r.0, r.1)
  }

  /** What pushing a command onto the board's history gives when the board is
      valid: the command becomes the newest entry with nothing to redo. */
  lemma PushWhenValid(b: Board, c: Command)
    ensures Valid(b) ==>
      var h := CM.Push(b.history, c);
      && CM.Valid(h) && CM.CanUndo(h) && !CM.CanRedo(h)
      && h.current == |h.entries| - 1 && h.entries[h.current] == c
  {
    if Valid(b) {
      CM.PushSpec(b.history, c);
    }
  }

  /** `commandManager.executeCommand(command)` on the board's world. */
  function Perform(b: Board, c: Command, e: Engine): (r: Board)
    ensures r.history == CM.Push(b.history, Commands.Execute(c, b.world, e).0)
    ensures r.world == Commands.Execute(c, b.world, e).1
    ensures r.(history := b.history, world := b.world) == b
  {
    var done := CM.ExecuteCommand(b.history, RunExecute(e)(c, b.world));
    b.(history := done.0, world := done.1)
  }

  /** The drawing data `drawShape` builds. */
  function ShapeData(b: Board, start: Point, end: Point): DrawingData {
    DrawingData(b.tool, b.color, b.width, Some(start), Some(end), None, None)
  }

  /** `drawShape`: ignored unless a shape tool is active; otherwise one shape
      command with the current settings is executed and recorded. */
  function DrawShape(b: Board, start: Point, end: Point, now: nat, e: Engine): (r: Board)
    ensures !IsShapeTool(b.tool) ==> r == b
    ensures IsShapeTool(b.tool) ==>
      r == Perform(b, ShapeCmd(ShapeCommand.Create(b.ctx, ShapeData(b, start, end), now)), e)
  {
    if !IsShapeTool(b.tool) then b
    else Perform(b, ShapeCmd(ShapeCommand.Create(b.ctx, ShapeData(b, start, end), now)), e)
  }

  /** `addText`: a text command with the current colour and width, whatever
      the active tool, becomes the newest entry. */
  function AddText(b: Board, point: Point, text: Option<string>, now: nat, e: Engine): (r: Board)
    ensures r.(history := b.history, world := b.world) == b
    ensures r.world == Commands.Execute(TextCmd(TextCommand.Create(b.ctx, DrawingData(Tool.Text, b.color, b.width, Some(point), None, text, None), now)), b.world, e).1
    ensures r.world.remote == b.world.remote
    ensures |r.world.scene| == |b.world.scene| + 1 && r.world.scene[..|b.world.scene|] == b.world.scene
    ensures Valid(b) ==>
      var h := r.history;
      && Valid(r) && CM.CanUndo(h) && !CM.CanRedo(h)
      && h.entries[h.current].TextCmd?
      && h.entries[h.current].text.data == DrawingData(Tool.Text, b.color, b.width, Some(point), None, text, None)
  {
    var c := TextCommand.Create(b.ctx, DrawingData(Tool.Text, b.color, b.width, Some(point), None, text, None), now);
    var done := TextCommand.Execute(c, b.world, e);
    assert Commands.Execute(TextCmd(c), b.world, e) == (TextCmd(done.0), done.1);
    PushWhenValid(b, TextCmd(done.0));
    Perform(b, TextCmd(c), e)
  }

  /** `addPath`: a path command for the captured stroke's record becomes the
      newest entry. */
  function AddPath(b: Board, pathData: seq<Field>, objectId: Option<string>, now: nat, e: Engine): (r: Board)
    ensures r.(history := b.history, world := b.world) == b
    ensures r.world == Commands.Execute(PathCmd(PathCommand.Create(b.ctx, pathData, objectId, now)), b.world, e).1
    ensures e.fromObject(Object(pathData)).Deferred? ==> r.world == b.world
    ensures e.fromObject(Object(pathData)).Ready? ==>
      var id := BaseCommand.Create(b.ctx, objectId, now).objectId;
      && r.world.scene == b.world.scene + [Obj(PathCommand.Configure(e.fromObject(Object(pathData)).geometry, pathData), Some(id))]
      && (e.online ==> var k := RemoteKeys.PathKey(b.ctx.sessionId, id);
            k in r.world.remote && r.world.remote[k] == Clean(Object(pathData)))
    ensures Valid(b) ==>
      var h := r.history;
      && Valid(r) && CM.CanUndo(h) && !CM.CanRedo(h)
      && h.entries[h.current].PathCmd? && h.entries[h.current].path.pathData == pathData
  {
    var c := PathCommand.Create(b.ctx, pathData, objectId, now);
    var done := PathCommand.Execute(c, b.world, e);
    assert Commands.Execute(PathCmd(c), b.world, e) == (PathCmd(done.0), done.1);
    PushWhenValid(b, PathCmd(done.0));
    Perform(b, PathCmd(c), e)
  }

  /** `eraseObjects`: an executed eraser command for the captured stroke
      becomes the newest entry. */
  function EraseObjects(b: Board, stroke: Obj, now: nat, e: Engine): (r: Board)
    ensures r.(history := b.history, world := b.world) == b
    ensures r.world == Commands.Execute(EraserCmd(EraserCommand.Create(b.ctx, stroke, now)), b.world, e).1
    ensures r.world.scene == RemoveFirst(EraserCommand.Survivors(e, stroke, b.world.scene), stroke)
    ensures Valid(b) ==>
      var h := r.history;
      && Valid(r) && CM.CanUndo(h) && !CM.CanRedo(h)
      && h.entries[h.current].EraserCmd? && h.entries[h.current].eraser.stroke == stroke
      && h.entries[h.current].eraser.base.executed
  {
    var c := EraserCommand.Create(b.ctx, stroke, now);
    var done := EraserCommand.Execute(c, b.world, e);
    assert Commands.Execute(EraserCmd(c), b.world, e) == (EraserCmd(done.0), done.1);
    PushWhenValid(b, EraserCmd(done.0));
    Perform(b, EraserCmd(c), e)
  }

  /** `clearCanvas`: an executed clear command becomes the newest entry and
      the canvas is empty. */
  function ClearCanvas(b: Board, now: nat, e: Engine): (r: Board)
    ensures r.(history := b.history, world := b.world) == b
    ensures r.world == Commands.Execute(ClearCmd(ClearCommand.Create(b.ctx, now)), b.world, e).1
    ensures e.online ==> forall k | k in r.world.remote :: !RemoteKeys.Under(k, RemoteKeys.Namespace(b.ctx.sessionId))
    ensures forall k | k in r.world.remote :: k in b.world.remote && r.world.remote[k] == b.world.remote[k]
    ensures r.world.scene == []
    ensures Valid(b) ==>
      var h := r.history;
      && Valid(r) && CM.CanUndo(h) && !CM.CanRedo(h)
      && h.entries[h.current].ClearCmd? && h.entries[h.current].clear.base.executed
  {
    var c := ClearCommand.Create(b.ctx, now);
    var done := ClearCommand.Execute(c, b.world, e);
    assert Commands.Execute(ClearCmd(c), b.world, e) == (ClearCmd(done.0), done.1);
    PushWhenValid(b, ClearCmd(done.0));
    Perform(b, ClearCmd(c), e)
  }

  /** A path whose creation was deferred settles. The promise callback holds
      the command object itself, so the canvas and the store change whether or
      not the history still holds the command; an entry that does hold it
      (object identity is value equality here) takes the settled state. */
  function ResolvePath(b: Board, c: PathCommand.Cmd, result: Option<Json>, e: Engine): (r: Board)
    ensures r.world == PathCommand.Resolve(c, b.world, e, result).1
    ensures |r.history.entries| == |b.history.entries|
    ensures r.history.current == b.history.current && r.history.maxSize == b.history.maxSize
    ensures forall j | 0 <= j < |b.history.entries| && b.history.entries[j] != PathCmd(c) ::
      r.history.entries[j] == b.history.entries[j]
    ensures forall j | 0 <= j < |b.history.entries| && b.history.entries[j] == PathCmd(c) ::
      r.history.entries[j] == PathCmd(PathCommand.Resolve(c, b.world, e, result).0)
    ensures r.(history := b.history, world := b.world) == b
    ensures Valid(b) ==> Valid(r)
  {
    var settled := PathCommand.Resolve(c, b.world, e, result);
    Settle(b, PathCmd(c), PathCmd(settled.0), settled.1)
  }

  /** A command object changed outside the history (a callback or an event
      handler of the command itself): the board takes the world the change
      leaves, and every history entry that is this command takes its new
      state. */
  function Settle(b: Board, before: Command, after: Command, w: World): (r: Board)
    ensures r.world == w
    ensures |r.history.entries| == |b.history.entries|
    ensures r.history.current == b.history.current && r.history.maxSize == b.history.maxSize
    ensures forall j | 0 <= j < |b.history.entries| && b.history.entries[j] != before ::
      r.history.entries[j] == b.history.entries[j]
    ensures forall j | 0 <= j < |b.history.entries| && b.history.entries[j] == before ::
      r.history.entries[j] == after
    ensures r.(history := b.history, world := b.world) == b
    ensures Valid(b) ==> Valid(r)
  {
    var entries := b.history.entries;
    var updated := seq(|entries|, j requires 0 <= j < |entries| =>
      if entries[j] == before then after else entries[j]);
    b.(history := b.history.(entries := updated), world := w)
  }

  /** Leaving text editing (the `editing:exited` handler). The handler belongs
      to the command object itself, so the edit reaches the canvas and the
      store whether or not the history still holds the command, and an entry
      that does hold it takes the edited state: a later undo removes the
      edited object. */
  function ExitTextEdit(b: Board, c: TextCommand.Cmd, typed: string, e: Engine): (r: Board)
    ensures r.world == TextCommand.EditExit(c, b.world, e, typed).1
    ensures |r.history.entries| == |b.history.entries|
    ensures r.history.current == b.history.current && r.history.maxSize == b.history.maxSize
    ensures forall j | 0 <= j < |b.history.entries| && b.history.entries[j] != TextCmd(c) ::
      r.history.entries[j] == b.history.entries[j]
    ensures forall j | 0 <= j < |b.history.entries| && b.history.entries[j] == TextCmd(c) ::
      r.history.entries[j] == TextCmd(TextCommand.EditExit(c, b.world, e, typed).0)
    ensures r.(history := b.history, world := b.world) == b
    ensures Valid(b) ==> Valid(r)
  {
    var edited := TextCommand.EditExit(c, b.world, e, typed);
    Settle(b, TextCmd(c), TextCmd(edited.0), edited.1)
  }

  /** A deferred path that has left the history (cut off by a later command,
      dropped by the size bound or by `clearHistory`) still appears on the
      canvas and in the store when it settles, and no entry of the history
      can undo it. */
  lemma OrphanedPathStillAppears(b: Board, c: PathCommand.Cmd, g: Json, e: Engine)
    requires PathCmd(c) !in b.history.entries && c.inFlight > 0 && e.online
    ensures var r := ResolvePath(b, c, Some(g), e);
            var o := Obj(PathCommand.Configure(g, c.pathData), Some(c.base.objectId));
            && r.history == b.history
            && r.world.scene == b.world.scene + [o]
            && BaseCommand.Key(c.base) in r.world.remote && r.world.remote[BaseCommand.Key(c.base)] == Clean(Object(c.pathData))
            && (forall j | 0 <= j < |r.history.entries| :: r.history.entries[j] != PathCmd(c))
  {
    var r := ResolvePath(b, c, Some(g), e);
    assert r.history.entries == b.history.entries;
  }

  /** `undo`: delegated to the history. */
  function Undo(b: Board, e: Engine): (r: (Board, bool))
    ensures var u := CM.Undo(b.history, b.world, RunUndo(e));
            r == (b.(history := u.0, world := u.1), u.2)
  {
    var u := CM.Undo(b.history, b.world, RunUndo(e));
    (b.(history := u.0, world := u.1), u.2)
  }

  /** `redo`: delegated to the history. */
  function Redo(b: Board, e: Engine): (r: (Board, bool))
    ensures var u := CM.Redo(b.history, b.world, RunExecute(e));
            r == (b.(history := u.0, world := u.1), u.2)
  {
    var u := CM.Redo(b.history, b.world, RunExecute(e));
    (b.(history := u.0, world := u.1), u.2)
  }

  /** `getHistoryInfo`. */
  function GetHistoryInfo(b: Board): (i: CM.Info)
    ensures i == CM.GetInfo(b.history)
  {
    CM.GetInfo(b.history)
  }

  /** `clearHistory`. */
  function ClearHistory(b: Board): (r: Board)
    ensures r == b.(history := CM.ClearHistory(b.history))
  {
    b.(history := CM.ClearHistory(b.history))
  }

  /** Before any setter has run there is no preview command, so
      `startPreview` gives nothing even for a shape tool. */
  lemma NoPreviewBeforeSetters(ctx: Context, world: World, mode: CanvasMode, brush: Option<Brush>, start: Point)
    ensures var b := Create(ctx, world, mode, brush);
            StartPreview(b, start) == (b, None) && !HasPreview(b)
  {
  }

  /** Every setter keeps the controller's invariant and leaves no preview
      shown. */
  lemma SettersKeepValid(b: Board, t: Tool, color: string, width: real)
    requires Valid(b)
    ensures Valid(SetTool(b, t)) && Valid(SetColor(b, color)) && Valid(SetWidth(b, width))
    ensures !HasPreview(SetTool(b, t)) && !HasPreview(SetColor(b, color)) && !HasPreview(SetWidth(b, width))
  {
  }

  /** Changing the tool while a ghost is shown forgets the ghost without
      removing it: it stays on the canvas, and ending the preview no longer
      reaches it. */
  lemma SetToolOrphansGhost(b: Board, t: Tool)
    requires HasPreview(b) && b.preview.value.shown.value in b.world.scene
    ensures var r := SetTool(b, t);
            && b.preview.value.shown.value in r.world.scene
            && !HasPreview(r)
            && EndPreview(r).world == b.world
  {
  }

  /** The preview lifecycle stays on the canvas: the store, the history and
      the settings are untouched, and `startPreview` shows a ghost exactly
      when a shape tool is active and a preview command exists. */
  lemma PreviewIsLocal(b: Board, start: Point, end: Point, e: Engine)
    requires Valid(b)
    ensures var s := StartPreview(b, start).0;
            s.world.remote == b.world.remote && s.history == b.history && GetCurrentSettings(s) == GetCurrentSettings(b)
    ensures StartPreview(b, start).1.Some? <==> IsShapeTool(b.tool) && b.preview.Some?
    ensures var u := UpdatePreview(b, start, end, e);
            u.world.remote == b.world.remote && u.history == b.history && GetCurrentSettings(u) == GetCurrentSettings(b)
    ensures var x := EndPreview(b);
            x.world.remote == b.world.remote && x.history == b.history && !HasPreview(x)
  {
  }

  /** `drawShape` under a shape tool records one executed shape command built
      from the current settings; it becomes the newest entry, leaves nothing
      to redo, and its object is the one new thing on the canvas. */
  lemma DrawShapeRecordsOne(b: Board, start: Point, end: Point, now: nat, e: Engine)
    requires Valid(b) && IsShapeTool(b.tool)
    ensures var r := DrawShape(b, start, end, now, e);
            var h := r.history;
            && Valid(r)
            && h.entries[h.current].ShapeCmd?
            && h.entries[h.current].shape.data == ShapeData(b, start, end)
            && h.entries[h.current].shape.base.executed
            && CM.CanUndo(h) && !CM.CanRedo(h)
            && r.world.scene == b.world.scene + [ShapeCommand.Drawn(h.entries[h.current].shape, e)]
  {
    var c := ShapeCommand.Create(b.ctx, ShapeData(b, start, end), now);
    var done := ShapeCommand.Execute(c, b.world, e);
    assert Commands.Execute(ShapeCmd(c), b.world, e) == (ShapeCmd(done.0), done.1);
    CM.PushSpec(b.history, ShapeCmd(done.0));
  }

  /** The text command `addText` would build. */
  function TextFor(b: Board, point: Point, text: Option<string>, now: nat): TextCommand.Cmd {
    TextCommand.Create(b.ctx, DrawingData(Tool.Text, b.color, b.width, Some(point), None, text, None), now)
  }

  /** Adding text, typing something non-blank and then undoing through the
      board: undo succeeds, removes the edited object, gives back the scene
      from before the text was added, and deletes the text's store entry. */
  lemma EditedTextUndone(b: Board, point: Point, text: Option<string>, now: nat, e: Engine, typed: string)
    requires Valid(b) && TextCommand.Trim(typed) != ""
    requires var c := TextFor(b, point, text, now);
             var o := Obj(TextCommand.CreateText(c.data).value, Some(c.base.objectId));
             o !in b.world.scene && TextCommand.Edited(o, typed) !in b.world.scene
    ensures var c1 := TextCommand.Execute(TextFor(b, point, text, now), b.world, e).0;
            var u := Undo(ExitTextEdit(AddText(b, point, text, now, e), c1, typed, e), e);
            && u.1 && u.0.world.scene == b.world.scene
            && (e.online ==> BaseCommand.Key(c1.base) !in u.0.world.remote)
  {
    var c := TextFor(b, point, text, now);
    var o := Obj(TextCommand.CreateText(c.data).value, Some(c.base.objectId));
    var o' := TextCommand.Edited(o, typed);
    var run := TextCommand.Execute(c, b.world, e);
    var c1, w1 := run.0, run.1;
    assert w1.scene == b.world.scene + [o] && c1.obj == Some(o) && c1.base.executed;
    assert Commands.Execute(TextCmd(c), b.world, e) == (TextCmd(c1), w1);
    var a := AddText(b, point, text, now, e);
    PushWhenValid(b, TextCmd(c1));
    var k := a.history.current;
    assert a.world == w1 && a.history.entries[k] == TextCmd(c1);
    var edit := TextCommand.EditExit(c1, w1, e, typed);
    ReplaceLast(b.world.scene, o, o');
    assert edit.1.scene == b.world.scene + [o'];
    var x := ExitTextEdit(a, c1, typed, e);
    assert x.history.entries[k] == TextCmd(edit.0) && x.history.current == k;
    var undone := TextCommand.Undo(edit.0, edit.1, e);
    RemoveFirstAfter(b.world.scene, o', []);
    assert b.world.scene + [o'] + [] == b.world.scene + [o'];
    assert undone.1.scene == b.world.scene;
    assert RunUndo(e)(TextCmd(edit.0), edit.1) == CM.Completed(TextCmd(undone.0), undone.1);
  }

  /** The shape command `drawShape` would build. */
  function ShapeFor(b: Board, start: Point, end: Point, now: nat): ShapeCommand.Cmd {
    ShapeCommand.Create(b.ctx, ShapeData(b, start, end), now)
  }

  /** Undo then redo of a drawn shape: undo succeeds and gives back the world
      as it was before the drawing, leaving the command to redo; redo
      succeeds and gives back the drawn world and the history exactly. */
  lemma DrawUndoRedo(b: Board, start: Point, end: Point, now: nat, e: Engine)
    requires Valid(b) && IsShapeTool(b.tool)
    requires BaseCommand.Key(ShapeFor(b, start, end, now).base) !in b.world.remote
    requires ShapeCommand.Drawn(ShapeFor(b, start, end, now), e) !in b.world.scene
    ensures var d := DrawShape(b, start, end, now, e);
            var u := Undo(d, e);
            var r := Redo(u.0, e);
            && u.1 && u.0.world == b.world && CM.CanRedo(u.0.history)
            && r.1 && r.0.world == d.world && r.0.history == d.history
  {
    var c := ShapeFor(b, start, end, now);
    DrawShapeRecordsOne(b, start, end, now, e);
    var c1w1 := ShapeCommand.Execute(c, b.world, e);
    var c1, w1 := c1w1.0, c1w1.1;
    assert Commands.Execute(ShapeCmd(c), b.world, e) == (ShapeCmd(c1), w1);
    var d := DrawShape(b, start, end, now, e);
    assert d.world == w1;
    var k := d.history.current;
    assert d.history.entries[k] == ShapeCmd(c1);
    ShapeCommand.ExecuteThenUndoRestores(c, b.world, e);
    ShapeCommand.UndoThenRedoReproduces(c, b.world, e);
    var c2w2 := ShapeCommand.Undo(c1, w1, e);
    assert RunUndo(e)(ShapeCmd(c1), w1) == CM.Completed(ShapeCmd(c2w2.0), c2w2.1);
    var u := Undo(d, e);
    assert u.0.history.entries == d.history.entries[k := ShapeCmd(c2w2.0)];
    assert u.0.history.current == k - 1;
    assert RunExecute(e)(ShapeCmd(c2w2.0), c2w2.1) == CM.Completed(ShapeCmd(c1), w1);
    assert d.history.entries[k := ShapeCmd(c2w2.0)][k := ShapeCmd(c1)] == d.history.entries;
  }

  /** The rectangle drawn from (10, 10) to (50, 40) in red at width 3: a box
      at (10, 10) of 40 by 30 with a transparent fill, tagged with the new
      command's id, and one store entry under that id holding its record. */
  lemma RedRectangle(b: Board, now: nat, e: Engine)
    requires Valid(b) && b.tool == Rectangle && b.color == "#FF0000" && b.width == 3.0 && e.online
    ensures var d := DrawShape(b, Point(10.0, 10.0), Point(50.0, 40.0), now, e);
            var id := BaseCommand.Create(b.ctx, None, now).objectId;
            var rect := RectShape(10.0, 10.0, 40.0, 30.0, "transparent", "#FF0000", 3.0);
            var key := RemoteKeys.PathKey(b.ctx.sessionId, id);
            && d.world.scene == b.world.scene + [Obj(rect, Some(id))]
            && key in d.world.remote && d.world.remote[key] == Clean(e.toObject(rect))
            && (forall k | k != key :: (k in d.world.remote <==> k in b.world.remote))
  {
    var start, end := Point(10.0, 10.0), Point(50.0, 40.0);
    var c := ShapeFor(b, start, end, now);
    assert ShapeCommand.CreateShape(c.data, e) ==
           Some(ShapeCommand.RectangleBetween(start, end, "#FF0000", 3.0));
    var done := ShapeCommand.Execute(c, b.world, e);
    assert Commands.Execute(ShapeCmd(c), b.world, e) == (ShapeCmd(done.0), done.1);
  }
}
