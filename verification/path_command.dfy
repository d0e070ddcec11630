/** PathCommand.ts: a freehand stroke rebuilt from its serialised data, either
    at once or, when the engine answers with a promise, once that resolves. */
module PathCommand {
  import opened Wrappers
  import opened JsonData
  import opened Scene
  import opened BaseCommand

  /** The command: shared state, the raw `pathData` record, the engine object
      (`fabricObject`) and the number of asynchronous creations still in
      flight. */
  datatype Cmd = Cmd(base: Base, pathData: seq<Field>, obj: Option<Obj>, inFlight: nat)

  function Create(ctx: Context, pathData: seq<Field>, explicit: Option<string>, now: nat): (c: Cmd)
    ensures !c.base.executed && c.obj.None? && c.inFlight == 0 && c.pathData == pathData
    ensures c.base == BaseCommand.Create(ctx, explicit, now)
  {
    Cmd(BaseCommand.Create(ctx, explicit, now), pathData, None, 0)
  }

  /** A property of the record, `undefined` when absent. */
  function Prop(pathData: seq<Field>, key: string): Json {
    Lookup(pathData, key).GetOr(Undefined)
  }

  /** `configurePathObject`: empty fill, the record's stroke when truthy and
      `#000000` otherwise, its stroke width when truthy and 5 otherwise. */
  function Configure(geometry: Json, pathData: seq<Field>): (s: Shape)
    ensures s.PathShape? && s.geometry == geometry && s.pathFill == ""
    ensures Truthy(Prop(pathData, "stroke")) ==> s.pathStroke == Prop(pathData, "stroke")
    ensures !Truthy(Prop(pathData, "stroke")) ==> s.pathStroke == Str("#000000")
    ensures Truthy(Prop(pathData, "strokeWidth")) ==> s.pathWidth == Prop(pathData, "strokeWidth")
    ensures !Truthy(Prop(pathData, "strokeWidth")) ==> s.pathWidth == Num(5.0)
  {
    var stroke, width := Prop(pathData, "stroke"), Prop(pathData, "strokeWidth");
    PathShape(geometry,
              "",
              if Truthy(stroke) then stroke else Str("#000000"),
              if Truthy(width) then width else Num(5.0))
  }

  /** Adding the configured object and writing the raw record (not the
      engine's serialisation) under the command's key. */
  function Materialise(c: Cmd, w: World, e: Engine, geometry: Json): (r: (Cmd, World))
    ensures r.0.base.executed && r.0.obj == Some(Obj(Configure(geometry, c.pathData), Some(c.base.objectId)))
    ensures r.1.scene == w.scene + [r.0.obj.value]
    ensures e.online ==> Key(c.base) in r.1.remote && r.1.remote[Key(c.base)] == Clean(Object(c.pathData))
    ensures forall k | k != Key(c.base) :: (k in r.1.remote <==> k in w.remote)
    ensures forall k | k != Key(c.base) && k in w.remote :: r.1.remote[k] == w.remote[k]
    ensures r.0.pathData == c.pathData && r.0.inFlight == c.inFlight
    ensures r.0.base.objectId == c.base.objectId && r.0.base.ctx == c.base.ctx
  {
    var (o, w1) := AddToCanvas(c.base, w, Configure(geometry, c.pathData));
    (c.(obj := Some(o), base := c.base.(executed := true)),
     SaveToRemote(c.base, w1, e, Object(c.pathData)))
  }

  /** `execute`: a no-op once executed; a ready object is added and written at
      once; a promise leaves the command unexecuted with one more creation in
      flight (and `fabricObject` reset to null). */
  function Execute(c: Cmd, w: World, e: Engine): (r: (Cmd, World))
    ensures c.base.executed ==> r == (c, w)
    ensures !c.base.executed && e.fromObject(Object(c.pathData)).Ready? ==>
      r == Materialise(c, w, e, e.fromObject(Object(c.pathData)).geometry)
    ensures !c.base.executed && e.fromObject(Object(c.pathData)).Deferred? ==>
      r == (c.(obj := None, inFlight := c.inFlight + 1), w)
  {
    if c.base.executed then (c, w)
    else
      match e.fromObject(Object(c.pathData))
      case Ready(g) => Materialise(c, w, e, g)
      case Deferred => (c.(obj := None, inFlight := c.inFlight + 1), w)
  }

  /** One in-flight creation settles (`handleAsyncPathCreation`): with an
      object, it is added and written and the command becomes executed,
      whatever its flag was; without one (the engine failed), only the count
      drops. With nothing in flight there is nothing to settle. */
  function Resolve(c: Cmd, w: World, e: Engine, result: Option<Json>): (r: (Cmd, World))
    ensures c.inFlight == 0 ==> r == (c, w)
    ensures c.inFlight > 0 ==> r.0.inFlight == c.inFlight - 1
    ensures c.inFlight > 0 && result.None? ==> r == (c.(inFlight := c.inFlight - 1), w)
    ensures c.inFlight > 0 && result.Some? ==> r == Materialise(c.(inFlight := c.inFlight - 1), w, e, result.value)
  {
    if c.inFlight == 0 then (c, w)
    else
      var c1 := c.(inFlight := c.inFlight - 1);
      match result
      case None => (c1, w)
      case Some(g) => Materialise(c1, w, e, g)
  }

  /** `undo`: a no-op unless executed; removes the object, deletes the key and
      clears the flag. */
  function Undo(c: Cmd, w: World, e: Engine): (r: (Cmd, World))
    ensures !c.base.executed ==> r == (c, w)
    ensures c.base.executed ==>
      && !r.0.base.executed
      && r.1.scene == (if c.obj.Some? then RemoveFirst(w.scene, c.obj.value) else RemoveFirstTagged(w.scene, c.base.objectId))
      && (e.online ==> Key(c.base) !in r.1.remote)
      && (forall k | k != Key(c.base) :: (k in r.1.remote <==> k in w.remote))
      && (forall k | k != Key(c.base) && k in w.remote :: r.1.remote[k] == w.remote[k])
    ensures r.0.pathData == c.pathData && r.0.obj == c.obj && r.0.inFlight == c.inFlight
    ensures r.0.base.objectId == c.base.objectId && r.0.base.ctx == c.base.ctx
  {
    if !c.base.executed then (c, w)
    else
      var w1 := RemoveFromCanvas(c.base, w, c.obj);
      (c.(base := c.base.(executed := false)), RemoveFromRemote(c.base, w1, e))
  }

  /** `getType`. */
  function TypeName(c: Cmd): string {
    "path"
  }

  /** `getData`: `{...pathData, objectId}`; the id overrides a property of the
      same name, every other property is reported as recorded. */
  function GetData(c: Cmd): (j: Json)
    ensures j.Object? && Lookup(j.fields, "objectId") == Some(Str(c.base.objectId))
    ensures forall k | k != "objectId" :: Lookup(j.fields, k) == Lookup(c.pathData, k)
  {
    Object(Assign(c.pathData, "objectId", Str(c.base.objectId)))
  }

  /** A stroke width of 0 is falsy, so the configured width is 5. */
  lemma ZeroWidthBecomesFive(geometry: Json, pathData: seq<Field>)
    requires Prop(pathData, "strokeWidth") == Num(0.0)
    ensures Configure(geometry, pathData).pathWidth == Num(5.0)
  {
  }

  /** While the creation is pending the command is not executed, so an undo
      changes nothing; when the creation later settles with an object, that
      object still appears and is written: the undo did not cancel it. */
  lemma PendingUndoDoesNotCancel(c: Cmd, w: World, e: Engine, g: Json)
    requires !c.base.executed && e.fromObject(Object(c.pathData)).Deferred?
    ensures var (c1, w1) := Execute(c, w, e);
            && !c1.base.executed && w1 == w
            && Undo(c1, w1, e) == (c1, w1)
            && var (c2, w2) := Resolve(c1, w1, e, Some(g));
               c2.base.executed && w2.scene == w.scene + [Obj(Configure(g, c.pathData), Some(c.base.objectId))]
  {
  }

  /** First synchronous execute then undo gives back the world, provided the
      key was not in use and the object was not already on the canvas. */
  lemma ExecuteThenUndoRestores(c: Cmd, w: World, e: Engine)
    requires !c.base.executed && e.fromObject(Object(c.pathData)).Ready?
    requires Key(c.base) !in w.remote
    requires Obj(Configure(e.fromObject(Object(c.pathData)).geometry, c.pathData), Some(c.base.objectId)) !in w.scene
    ensures var (c1, w1) := Execute(c, w, e); Undo(c1, w1, e).1 == w
  {
    var o := Obj(Configure(e.fromObject(Object(c.pathData)).geometry, c.pathData), Some(c.base.objectId));
    RemoveFirstAfter(w.scene, o, []);
    assert w.scene + [o] + [] == w.scene + [o];
    assert w.scene + [] == w.scene;
    if e.online {
      var k := Key(c.base);
      assert w.remote[k := Clean(Object(c.pathData))] - {k} == w.remote;
    }
  }

  /** Store failures are caught: whether the store accepts requests changes
      neither the command's state nor the scene, and a failing store is left
      as it was. */
  lemma StoreFailureIsContained(c: Cmd, w: World, e: Engine)
    ensures Execute(c, w, e.(online := false)).0 == Execute(c, w, e.(online := true)).0
    ensures Execute(c, w, e.(online := false)).1.scene == Execute(c, w, e.(online := true)).1.scene
    ensures Execute(c, w, e.(online := false)).1.remote == w.remote
    ensures Undo(c, w, e.(online := false)).0 == Undo(c, w, e.(online := true)).0
    ensures Undo(c, w, e.(online := false)).1.scene == Undo(c, w, e.(online := true)).1.scene
    ensures Undo(c, w, e.(online := false)).1.remote == w.remote
  {
  }
}
