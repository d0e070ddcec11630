/** The snapshot records the eraser and clear commands keep of the objects
    they remove, and the undo step both share: re-adding every snapshot and
    re-writing each record through `saveToFirebase`, that is, under the
    command's own key. */
module Snapshots {
  import opened Wrappers
  import opened JsonData
  import opened Scene
  import opened BaseCommand
  import RemoteKeys

  /** `{ object, data: object.toObject(), firebaseId }`. */
  datatype Snapshot = Snapshot(obj: Obj, data: Json, id: string)

  function Take(e: Engine, o: Obj): (s: Snapshot)
    requires Tagged(o)
  {
    Snapshot(o, e.toObject(o.shape), o.tag.value)
  }

  /** The objects undo puts back, each re-tagged with its recorded id. */
  function Restored(snaps: seq<Snapshot>): (r: seq<Obj>)
    ensures |r| == |snaps|
    ensures forall i | 0 <= i < |snaps| :: r[i] == snaps[i].obj.(tag := Some(snaps[i].id))
  {
    seq(|snaps|, i requires 0 <= i < |snaps| => snaps[i].obj.(tag := Some(snaps[i].id)))
  }

  /** The keys the recorded ids name in session `sessionId`. */
  function IdKeys(sessionId: string, snaps: seq<Snapshot>): (ks: set<string>)
    ensures forall i | 0 <= i < |snaps| :: RemoteKeys.PathKey(sessionId, snaps[i].id) in ks
  {
    set i | 0 <= i < |snaps| :: RemoteKeys.PathKey(sessionId, snaps[i].id)
  }

  /** The key set only grows as snapshots are appended. */
  lemma IdKeysGrow(sessionId: string, a: seq<Snapshot>, b: seq<Snapshot>)
    ensures IdKeys(sessionId, a) <= IdKeys(sessionId, a + b)
  {
    forall k | k in IdKeys(sessionId, a) ensures k in IdKeys(sessionId, a + b) {
      var i :| 0 <= i < |a| && k == RemoteKeys.PathKey(sessionId, a[i].id);
      assert (a + b)[i] == a[i];
    }
  }

  /** The undo loop's store side: `saveToFirebase(data)` once per snapshot, in
      order. Every write lands on the command's own key, so the store ends
      with the last record there and nothing else changed. */
  function SaveEach(b: Base, w: World, e: Engine, snaps: seq<Snapshot>): (w': World)
    ensures w'.scene == w.scene
    ensures e.online && snaps != [] ==>
      Key(b) in w'.remote && w'.remote[Key(b)] == Clean(snaps[|snaps| - 1].data)
    ensures forall k | k != Key(b) :: (k in w'.remote <==> k in w.remote)
    ensures forall k | k != Key(b) && k in w.remote :: w'.remote[k] == w.remote[k]
    ensures !e.online || snaps == [] ==> w' == w
    decreases |snaps|
  {
    if snaps == [] then w
    else SaveEach(b, SaveToRemote(b, w, e, snaps[0].data), e, snaps[1..])
  }

  /** The shared undo: every snapshot is re-added after the current scene and
      re-written under the command's key. */
  function RestoreAll(b: Base, w: World, e: Engine, snaps: seq<Snapshot>): (w': World)
    ensures w'.scene == w.scene + Restored(snaps)
    ensures w'.remote == SaveEach(b, w, e, snaps).remote
  {
    SaveEach(b, w.(scene := w.scene + Restored(snaps)), e, snaps)
  }

  /** The ids of the snapshots, as `getData` lists them. */
  function IdList(snaps: seq<Snapshot>): (j: Json)
    ensures j.Arr? && |j.items| == |snaps|
    ensures forall i | 0 <= i < |snaps| :: j.items[i] == Str(snaps[i].id)
  {
    Arr(seq(|snaps|, i requires 0 <= i < |snaps| => Str(snaps[i].id)))
  }
}
