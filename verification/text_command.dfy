/** TextCommand.ts: an editable text object whose remote write waits for the
    end of its first edit session. */
module TextCommand {
  import opened Wrappers
  import opened JsonData
  import opened Types
  import opened Scene
  import opened BaseCommand

  datatype Cmd = Cmd(base: Base, data: DrawingData, obj: Option<Obj>)

  function Create(ctx: Context, data: DrawingData, now: nat): (c: Cmd)
    ensures !c.base.executed && c.obj.None? && c.data == data
    ensures c.base == BaseCommand.Create(ctx, data.objectId, now)
  {
    Cmd(BaseCommand.Create(ctx, data.objectId, now), data, None)
  }

  /** The characters `String.prototype.trim` strips: the ECMAScript white
      space and line terminator code points. */
  predicate IsSpace(ch: char) {
    var c := ch as int;
    || 0x09 <= c <= 0x0D || c == 0x20 || c == 0xA0 || c == 0x1680
    || 0x2000 <= c <= 0x200A || c == 0x2028 || c == 0x2029 || c == 0x202F
    || c == 0x205F || c == 0x3000 || c == 0xFEFF
  }

  /** The end of the run of white space that starts at `i`. */
  function SpaceRunFrom(s: string, i: nat): (n: nat)
    requires i <= |s|
    ensures i <= n <= |s|
    ensures forall k | i <= k < n :: IsSpace(s[k])
    ensures n < |s| ==> !IsSpace(s[n])
    decreases |s| - i
  {
    if i < |s| && IsSpace(s[i]) then SpaceRunFrom(s, i + 1) else i
  }

  /** The start of the run of white space that ends at `j`. */
  function SpaceRunTo(s: string, j: nat): (n: nat)
    requires j <= |s|
    ensures n <= j
    ensures forall k | n <= k < j :: IsSpace(s[k])
    ensures 0 < n ==> !IsSpace(s[n - 1])
  {
    if 0 < j && IsSpace(s[j - 1]) then SpaceRunTo(s, j - 1) else j
  }

  /** `trimStart`: the suffix after the leading white space. */
  function TrimStart(s: string): (r: string)
    ensures |r| <= |s| && r == s[|s| - |r|..]
    ensures forall i | 0 <= i < |s| - |r| :: IsSpace(s[i])
    ensures r != [] ==> !IsSpace(r[0])
    ensures r == [] ==> forall i | 0 <= i < |s| :: IsSpace(s[i])
  {
    s[SpaceRunFrom(s, 0)..]
  }

  /** `trimEnd`: the prefix before the trailing white space. */
  function TrimEnd(s: string): (r: string)
    ensures |r| <= |s| && r == s[..|r|]
    ensures forall i | |r| <= i < |s| :: IsSpace(s[i])
    ensures r != [] ==> !IsSpace(r[|r| - 1])
    ensures r == [] ==> forall i | 0 <= i < |s| :: IsSpace(s[i])
  {
    s[..SpaceRunTo(s, |s|)]
  }

  /** `text.trim()`: a stretch of the text that neither starts nor ends with
      white space, with only white space cut off around it. */
  function Trim(s: string): (r: string)
    ensures |r| <= |s|
    ensures r != [] ==> !IsSpace(r[0]) && !IsSpace(r[|r| - 1])
    ensures var a := SpaceRunFrom(s, 0);
      && a + |r| <= |s| && r == s[a..a + |r|]
      && (forall i | 0 <= i < a :: IsSpace(s[i]))
      && (forall i | a + |r| <= i < |s| :: IsSpace(s[i]))
  {
    var a := |s| - |TrimStart(s)|;
    assert TrimEnd(TrimStart(s)) == s[a..a + |TrimEnd(TrimStart(s))|];
    TrimEnd(TrimStart(s))
  }

  /** The trimmed text is empty exactly when every character is white space. */
  lemma TrimEmptyIffBlank(s: string)
    ensures Trim(s) == "" <==> forall i | 0 <= i < |s| :: IsSpace(s[i])
  {
  }

  /** `createText`: an IText at the start point with the text (default `''`)
      and the colour as fill; nothing without a start point. */
  function CreateText(data: DrawingData): (r: Option<Shape>)
    ensures r.Some? <==> data.startPoint.Some?
    ensures r.Some? ==>
      && r.value.TextShape? && r.value.left == data.startPoint.value.x
      && r.value.top == data.startPoint.value.y && r.value.text == data.text.GetOr("")
      && r.value.fill == data.color
  {
    match data.startPoint
    case None => None
    case Some(p) => Some(TextShape(p.x, p.y, data.text.GetOr(""), data.color, "Arial", 20.0))
  }

  /** `execute`: guarded; adds the tagged text object and enters editing, but
      writes nothing to the store. */
  function Execute(c: Cmd, w: World, e: Engine): (r: (Cmd, World))
    ensures c.base.executed ==> r == (c, w)
    ensures r.1.remote == w.remote
    ensures !c.base.executed && c.data.startPoint.None? ==> r.1 == w && !r.0.base.executed
    ensures !c.base.executed && c.data.startPoint.Some? ==>
      var o := Obj(CreateText(c.data).value, Some(c.base.objectId));
      r.0.base.executed && r.0.obj == Some(o) && r.1.scene == w.scene + [o]
    ensures r.0.data == c.data && r.0.base.objectId == c.base.objectId && r.0.base.ctx == c.base.ctx
  {
    if c.base.executed then (c, w)
    else
      match CreateText(c.data)
      case None => (c.(obj := None), w)
      case Some(shape) =>
        var (o, w1) := AddToCanvas(c.base, w, shape);
        (c.(obj := Some(o), base := c.base.(executed := true)), w1)
  }

  /** The object after the user typed `typed` into it. */
  function Edited(o: Obj, typed: string): Obj {
    match o.shape
    case TextShape(l, t, _, f, ff, fs) => o.(shape := TextShape(l, t, typed, f, ff, fs))
    case _ => o
  }

  /** The `editing:exited` handler, given the text the user left in the
      object: blank text removes the object from the scene and writes nothing;
      other text writes the object's serialisation under the command's key.
      The handler looks only at the object, not at the executed flag. */
  function EditExit(c: Cmd, w: World, e: Engine, typed: string): (r: (Cmd, World))
    ensures c.obj.None? ==> r == (c, w)
    ensures c.obj.Some? ==> r.0 == c.(obj := Some(Edited(c.obj.value, typed)))
    ensures c.obj.Some? && Trim(typed) == "" ==>
      r.1 == w.(scene := RemoveFirst(w.scene, c.obj.value))
    ensures c.obj.Some? && Trim(typed) != "" ==>
      && r.1.scene == ReplaceFirst(w.scene, c.obj.value, Edited(c.obj.value, typed))
      && (e.online ==> Key(c.base) in r.1.remote
                       && r.1.remote[Key(c.base)] == Clean(e.toObject(Edited(c.obj.value, typed).shape)))
      && (forall k | k != Key(c.base) :: (k in r.1.remote <==> k in w.remote))
      && (forall k | k != Key(c.base) && k in w.remote :: r.1.remote[k] == w.remote[k])
  {
    match c.obj
    case None => (c, w)
    case Some(o) =>
      var o' := Edited(o, typed);
      if Trim(typed) == "" then
        (c.(obj := Some(o')), w.(scene := RemoveFirst(w.scene, o)))
      else
        var w1 := w.(scene := ReplaceFirst(w.scene, o, o'));
        (c.(obj := Some(o')), SaveToRemote(c.base, w1, e, e.toObject(o'.shape)))
  }

  /** `undo`: guarded; removes the object (if still there) and always issues
      the delete of the key, written or not. */
  function Undo(c: Cmd, w: World, e: Engine): (r: (Cmd, World))
    ensures !c.base.executed ==> r == (c, w)
    ensures c.base.executed ==>
      && !r.0.base.executed
      && r.1.scene == (if c.obj.Some? then RemoveFirst(w.scene, c.obj.value) else RemoveFirstTagged(w.scene, c.base.objectId))
      && (e.online ==> Key(c.base) !in r.1.remote)
      && (forall k | k != Key(c.base) :: (k in r.1.remote <==> k in w.remote))
      && (forall k | k != Key(c.base) && k in w.remote :: r.1.remote[k] == w.remote[k])
    ensures r.0.data == c.data && r.0.obj == c.obj && r.0.base.objectId == c.base.objectId
  {
    if !c.base.executed then (c, w)
    else
      var w1 := RemoveFromCanvas(c.base, w, c.obj);
      (c.(base := c.base.(executed := false)), RemoveFromRemote(c.base, w1, e))
  }

  /** `getType`. */
  function TypeName(c: Cmd): string {
    "text"
  }

  /** `getData`: the text is reported as `''` when none was given. */
  function GetData(c: Cmd): (j: Json)
    ensures j.Object? && Lookup(j.fields, "objectId") == Some(Str(c.base.objectId))
    ensures Lookup(j.fields, "text") == Some(Str(c.data.text.GetOr("")))
    ensures Lookup(j.fields, "tool") == Some(Str(ToolName(c.data.tool)))
    ensures Lookup(j.fields, "color") == Some(Str(c.data.color))
    ensures Lookup(j.fields, "startPoint") == Some(PointJson(c.data.startPoint))
  {
    var start := PointJson(c.data.startPoint);
    var fields := Assign(Assign(Assign([Field("tool", Str(ToolName(c.data.tool)))],
                                       "color", Str(c.data.color)),
                                "startPoint", start),
                         "text", Str(c.data.text.GetOr("")));
    Object(Assign(fields, "objectId", Str(c.base.objectId)))
  }

  /** Blank text at the end of the first edit leaves neither object nor entry
      behind, and the undo that follows changes nothing further, provided the
      key was not in use and the object was not already on the canvas. */
  lemma BlankTextIsDiscarded(c: Cmd, w: World, e: Engine, typed: string)
    requires !c.base.executed && c.data.startPoint.Some?
    requires Trim(typed) == ""
    requires Key(c.base) !in w.remote
    requires forall x | x in w.scene :: x.tag != Some(c.base.objectId)
    ensures var (c1, w1) := Execute(c, w, e);
            var (c2, w2) := EditExit(c1, w1, e, typed);
            w2 == w && Undo(c2, w2, e).1 == w
  {
    var o := Obj(CreateText(c.data).value, Some(c.base.objectId));
    var k := Key(c.base);
    RemoveFirstAfter(w.scene, o, []);
    assert w.scene + [o] + [] == w.scene + [o];
    assert w.scene + [] == w.scene;
    var (c1, w1) := Execute(c, w, e);
    assert w1 == w.(scene := w.scene + [o]);
    assert c1.obj == Some(o) && c1.base.executed;
    var (c2, w2) := EditExit(c1, w1, e, typed);
    var o' := Edited(o, typed);
    assert w2 == w;
    assert c2.obj == Some(o') && c2.base.executed;
    EditedKeepsTag(o, typed);
    MapWithout(w.remote, k);
  }

  lemma EditedKeepsTag(o: Obj, typed: string)
    ensures Edited(o, typed).tag == o.tag
  {
  }

  lemma MapWithout<K, V>(m: map<K, V>, k: K)
    requires k !in m
    ensures m - {k} == m
  {
  }

  /** With non-blank text the first edit writes exactly one entry, under the
      command's key. */
  lemma TextWrittenOnce(c: Cmd, w: World, e: Engine, typed: string)
    requires !c.base.executed && c.data.startPoint.Some? && e.online
    requires Trim(typed) != ""
    ensures var (c1, w1) := Execute(c, w, e);
            var (c2, w2) := EditExit(c1, w1, e, typed);
            && w1.remote == w.remote
            && w2.remote.Keys == w.remote.Keys + {Key(c.base)}
  {
  }

  /** Store failures are caught: whether the store accepts requests changes
      neither the command's state nor the scene, and a failing store is left
      as it was. */
  lemma StoreFailureIsContained(c: Cmd, w: World, e: Engine)
    ensures Execute(c, w, e.(online := false)).0 == Execute(c, w, e.(online := true)).0
    ensures Execute(c, w, e.(online := false)).1.scene == Execute(c, w, e.(online := true)).1.scene
    ensures Execute(c, w, e.(online := false)).1.remote == w.remote
    ensures Undo(c, w, e.(online := false)).0 == Undo(c, w, e.(online := true)).0
    ensures Undo(c, w, e.(online := false)).1.scene == Undo(c, w, e.(online := true)).1.scene
    ensures Undo(c, w, e.(online := false)).1.remote == w.remote
  {
  }
}
