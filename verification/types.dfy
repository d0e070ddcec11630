/** The drawing vocabulary of types/command.ts: tools, points and the data a
    shape or text command is built from, plus the `Math` helpers the geometry
    uses. */
module Types {
  import opened Wrappers
  import opened JsonData

  datatype Tool = Pen | Eraser | Rectangle | Circle | Line | Arrow | Text | Select | Hand

  /** The string literal of each member of the `DrawingTool` union. */
  function ToolName(t: Tool): string {
    match t
    case Pen => "pen"
    case Eraser => "eraser"
    case Rectangle => "rectangle"
    case Circle => "circle"
    case Line => "line"
    case Arrow => "arrow"
    case Text => "text"
    case Select => "select"
    case Hand => "hand"
  }

  /** `['rectangle', 'circle', 'line'].includes(tool)`. */
  predicate IsShapeTool(t: Tool) {
    t == Rectangle || t == Circle || t == Line
  }

  datatype Point = Point(x: real, y: real)

  /** A point as `getData` reports it: `{x, y}`, or `undefined` when absent. */
  function PointJson(p: Option<Point>): (j: Json)
    ensures p.None? <==> j.Undefined?
    ensures p.Some? ==>
      j.Object? && Lookup(j.fields, "x") == Some(Num(p.value.x)) && Lookup(j.fields, "y") == Some(Num(p.value.y))
  {
    match p
    case None => Undefined
    case Some(pt) => Object([Field("x", Num(pt.x)), Field("y", Num(pt.y))])
  }

  datatype DrawingData = DrawingData(
    tool: Tool,
    color: string,
    width: real,
    startPoint: Option<Point>,
    endPoint: Option<Point>,
    text: Option<string>,
    objectId: Option<string>)

  function Min(a: real, b: real): real { if a <= b then a else b }
  function Max(a: real, b: real): real { if a >= b then a else b }
  function Abs(a: real): real { if a < 0.0 then -a else a }
}
