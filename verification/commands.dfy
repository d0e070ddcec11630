/** The `Command` interface of types/command.ts, closed over the five
    commands of the core: `execute`, `undo`, `getType` and `getData` by
    dispatch. */
module Commands {
  import opened JsonData
  import opened Scene
  import ShapeCommand
  import PathCommand
  import TextCommand
  import EraserCommand
  import ClearCommand

  datatype Command =
    | ShapeCmd(shape: ShapeCommand.Cmd)
    | PathCmd(path: PathCommand.Cmd)
    | TextCmd(text: TextCommand.Cmd)
    | EraserCmd(eraser: EraserCommand.Cmd)
    | ClearCmd(clear: ClearCommand.Cmd)

  /** The `isExecuted` flag every command carries. */
  predicate Executed(c: Command) {
    match c
    case ShapeCmd(s) => s.base.executed
    case PathCmd(p) => p.base.executed
    case TextCmd(t) => t.base.executed
    case EraserCmd(x) => x.base.executed
    case ClearCmd(k) => k.base.executed
  }

  function Execute(c: Command, w: World, e: Engine): (r: (Command, World))
    ensures r.0.ShapeCmd? == c.ShapeCmd? && r.0.PathCmd? == c.PathCmd? && r.0.TextCmd? == c.TextCmd?
    ensures r.0.EraserCmd? == c.EraserCmd? && r.0.ClearCmd? == c.ClearCmd?
  {
    match c
    case ShapeCmd(s) => var r := ShapeCommand.Execute(s, w, e); (ShapeCmd(r.0), r.1)
    case PathCmd(p) => var r := PathCommand.Execute(p, w, e); (PathCmd(r.0), r.1)
    case TextCmd(t) => var r := TextCommand.Execute(t, w, e); (TextCmd(r.0), r.1)
    case EraserCmd(x) => var r := EraserCommand.Execute(x, w, e); (EraserCmd(r.0), r.1)
    case ClearCmd(k) => var r := ClearCommand.Execute(k, w, e); (ClearCmd(r.0), r.1)
  }

  function Undo(c: Command, w: World, e: Engine): (r: (Command, World))
    ensures r.0.ShapeCmd? == c.ShapeCmd? && r.0.PathCmd? == c.PathCmd? && r.0.TextCmd? == c.TextCmd?
    ensures r.0.EraserCmd? == c.EraserCmd? && r.0.ClearCmd? == c.ClearCmd?
    ensures !Executed(r.0)
  {
    match c
    case ShapeCmd(s) => var r := ShapeCommand.Undo(s, w, e); (ShapeCmd(r.0), r.1)
    case PathCmd(p) => var r := PathCommand.Undo(p, w, e); (PathCmd(r.0), r.1)
    case TextCmd(t) => var r := TextCommand.Undo(t, w, e); (TextCmd(r.0), r.1)
    case EraserCmd(x) => var r := EraserCommand.Undo(x, w, e); (EraserCmd(r.0), r.1)
    case ClearCmd(k) => var r := ClearCommand.Undo(k, w, e); (ClearCmd(r.0), r.1)
  }

  /** `getType`: the fixed names of the four other kinds each pick out
      exactly that kind. */
  function TypeOf(c: Command): (t: string)
    ensures c.ShapeCmd? ==> t == "shape_" + Types.ToolName(c.shape.data.tool)
    ensures t == "path" <==> c.PathCmd?
    ensures t == "text" <==> c.TextCmd?
    ensures t == "eraser" <==> c.EraserCmd?
    ensures t == "clear" <==> c.ClearCmd?
  {
    match c
    case ShapeCmd(s) => ShapeCommand.TypeNameIdentifiesTool(s, s); ShapeCommand.TypeName(s)
    case PathCmd(p) => PathCommand.TypeName(p)
    case TextCmd(t) => TextCommand.TypeName(t)
    case EraserCmd(x) => EraserCommand.TypeName(x)
    case ClearCmd(k) => ClearCommand.TypeName(k)
  }

  /** `getData`. */
  function DataOf(c: Command): (j: Json)
    ensures j.Object?
  {
    match c
    case ShapeCmd(s) => ShapeCommand.GetData(s)
    case PathCmd(p) => PathCommand.GetData(p)
    case TextCmd(t) => TextCommand.GetData(t)
    case EraserCmd(x) => EraserCommand.GetData(x)
    case ClearCmd(k) => ClearCommand.GetData(k)
  }

  /** Every command's `execute` is a no-op once executed, and its `undo` a
      no-op until then. */
  lemma Guarded(c: Command, w: World, e: Engine)
    ensures Executed(c) ==> Execute(c, w, e) == (c, w)
    ensures !Executed(c) ==> Undo(c, w, e) == (c, w)
  {
  }

  /** The type name tells the kind of command apart: equal names mean the same
      kind (and, for shapes, the same tool). */
  lemma TypeOfIdentifiesKind(a: Command, b: Command)
    requires TypeOf(a) == TypeOf(b)
    ensures a.ShapeCmd? == b.ShapeCmd? && a.PathCmd? == b.PathCmd? && a.TextCmd? == b.TextCmd?
    ensures a.EraserCmd? == b.EraserCmd? && a.ClearCmd? == b.ClearCmd?
    ensures a.ShapeCmd? ==> a.shape.data.tool == b.shape.data.tool
  {
    assert TypeOf(a)[0] == TypeOf(b)[0];
    if a.ShapeCmd? {
      ShapeCommand.TypeNameIdentifiesTool(a.shape, b.shape);
    }
  }

  /** Store failures are caught inside the commands: whether the store
      accepts writes changes neither the scene nor the command's state. */
  lemma StoreFailureDoesNotPropagate(c: Command, w: World, e: Engine)
    ensures Execute(c, w, e.(online := false)).0 == Execute(c, w, e.(online := true)).0
    ensures Execute(c, w, e.(online := false)).1.scene == Execute(c, w, e.(online := true)).1.scene
    ensures Execute(c, w, e.(online := false)).1.remote == w.remote
    ensures Undo(c, w, e.(online := false)).0 == Undo(c, w, e.(online := true)).0
    ensures Undo(c, w, e.(online := false)).1.scene == Undo(c, w, e.(online := true)).1.scene
    ensures Undo(c, w, e.(online := false)).1.remote == w.remote
  {
    match c
    case ShapeCmd(s) =>
      ShapeCommand.StoreFailureIsContained(s, w, e);
    case PathCmd(p) =>
      PathCommand.StoreFailureIsContained(p, w, e);
    case TextCmd(t) =>
      TextCommand.StoreFailureIsContained(t, w, e);
    case EraserCmd(x) =>
      EraserCommand.StoreFailureIsContained(x, w, e);
    case ClearCmd(k) =>
      ClearCommand.StoreFailureIsContained(k, w, e);
  }
}
