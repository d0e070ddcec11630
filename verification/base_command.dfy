/** What every command shares (BaseCommand.ts): its context, its object id,
    the `isExecuted` guard, and the canvas/store helpers that use the id. */
module BaseCommand {
  import opened Wrappers
  import opened JsonData
  import opened Scene
  import RemoteKeys

  datatype Base = Base(ctx: Context, objectId: string, executed: bool)

  /** The constructor: the id is the explicit one when it is non-empty, and
      `{userId}_{now}` otherwise; a new command is not executed. */
  function Create(ctx: Context, explicit: Option<string>, now: nat): (b: Base)
    ensures !b.executed && b.ctx == ctx
    ensures explicit.Some? && explicit.value != "" ==> b.objectId == explicit.value
    ensures explicit.None? || explicit.value == "" ==> b.objectId == ctx.userId + "_" + RemoteKeys.DecimalString(now)
  {
    Base(ctx, RemoteKeys.DefaultObjectId(explicit, ctx.userId, now), false)
  }

  /** The single key `saveToFirebase` and `removeFromFirebase` use. */
  function Key(b: Base): string {
    RemoteKeys.PathKey(b.ctx.sessionId, b.objectId)
  }

  /** `saveToFirebase(data)`: always the command's own key. */
  function SaveToRemote(b: Base, w: World, e: Engine, data: Json): (w': World)
    ensures w'.scene == w.scene
    ensures e.online ==> Key(b) in w'.remote && w'.remote[Key(b)] == Clean(data)
    ensures forall k | k != Key(b) :: (k in w'.remote <==> k in w.remote)
    ensures forall k | k != Key(b) && k in w.remote :: w'.remote[k] == w.remote[k]
    ensures !e.online ==> w' == w
  {
    Put(w, e, Key(b), data)
  }

  /** `removeFromFirebase()`: the command's own key. */
  function RemoveFromRemote(b: Base, w: World, e: Engine): (w': World)
    ensures w'.scene == w.scene
    ensures e.online ==> Key(b) !in w'.remote
    ensures forall k | k != Key(b) :: (k in w'.remote <==> k in w.remote)
    ensures forall k | k != Key(b) && k in w.remote :: w'.remote[k] == w.remote[k]
    ensures !e.online ==> w' == w
  {
    Delete(w, e, Key(b))
  }

  /** `addToCanvas(object)`: the object is tagged with the command's id and
      appended to the scene; the store is not touched. */
  function AddToCanvas(b: Base, w: World, shape: Shape): (r: (Obj, World))
    ensures r.0.shape == shape && r.0.tag == Some(b.objectId)
    ensures r.1.scene == w.scene + [r.0] && r.1.remote == w.remote
  {
    var o := Obj(shape, Some(b.objectId));
    (o, w.(scene := w.scene + [o]))
  }

  /** `removeFromCanvas(object)`: the given object, or, without one, the
      first object tagged with the command's id. */
  function RemoveFromCanvas(b: Base, w: World, target: Option<Obj>): (w': World)
    ensures w'.remote == w.remote
    ensures target.Some? ==> w'.scene == RemoveFirst(w.scene, target.value)
    ensures target.None? ==> w'.scene == RemoveFirstTagged(w.scene, b.objectId)
  {
    match target
    case Some(o) => w.(scene := RemoveFirst(w.scene, o))
    case None => w.(scene := RemoveFirstTagged(w.scene, b.objectId))
  }
}
