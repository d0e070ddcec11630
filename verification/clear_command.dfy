/** ClearCommand.ts: empties the canvas and the session's drawing store. */
module ClearCommand {
  import opened Wrappers
  import opened JsonData
  import opened Scene
  import opened BaseCommand
  import opened Snapshots
  import RemoteKeys

  /** The command: shared state (its id is always generated) and the
      snapshots taken so far (never reset). */
  datatype Cmd = Cmd(base: Base, snapshots: seq<Snapshot>)

  function Create(ctx: Context, now: nat): (c: Cmd)
    ensures !c.base.executed && c.snapshots == []
    ensures c.base == BaseCommand.Create(ctx, None, now)
  {
    Cmd(BaseCommand.Create(ctx, None, now), [])
  }

  /** Snapshots of the tagged objects of `s`, in order. */
  function TaggedSnapshots(e: Engine, s: seq<Obj>): (r: seq<Snapshot>)
    ensures |r| <= |s|
    ensures forall i | 0 <= i < |r| :: Tagged(r[i].obj)
  {
    if s == [] then []
    else
      var last := s[|s| - 1];
      TaggedSnapshots(e, s[..|s| - 1]) + (if Tagged(last) then [Take(e, last)] else [])
  }

  /** The tagged objects of `s`, in order. */
  function TaggedOnly(s: seq<Obj>): (r: seq<Obj>)
    ensures |r| <= |s|
    ensures forall i | 0 <= i < |r| :: Tagged(r[i])
  {
    if s == [] then []
    else
      var last := s[|s| - 1];
      TaggedOnly(s[..|s| - 1]) + (if Tagged(last) then [last] else [])
  }

  /** A tagged object is kept by the filter, an untagged one is not. */
  lemma {:induction false} TaggedOnlyKeeps(s: seq<Obj>, o: Obj)
    requires o in s
    ensures o in TaggedOnly(s) <==> Tagged(o)
  {
    var p := s[..|s| - 1];
    assert s == p + [s[|s| - 1]];
    if o != s[|s| - 1] {
      TaggedOnlyKeeps(p, o);
    }
  }

  /** `execute`: guarded; snapshots every tagged object, empties the canvas,
      removes the whole session namespace from the store and sets the flag.
      The snapshots are appended to the earlier ones. */
  function Execute(c: Cmd, w: World, e: Engine): (r: (Cmd, World))
    ensures c.base.executed ==> r == (c, w)
    ensures !c.base.executed ==>
      && r.0 == c.(snapshots := c.snapshots + TaggedSnapshots(e, w.scene), base := c.base.(executed := true))
      && r.1.scene == []
      && (e.online ==> forall k | k in r.1.remote :: !RemoteKeys.Under(k, RemoteKeys.Namespace(c.base.ctx.sessionId)))
      && (forall k | !RemoteKeys.Under(k, RemoteKeys.Namespace(c.base.ctx.sessionId)) ::
            (k in r.1.remote <==> k in w.remote))
      && (forall k | k in r.1.remote :: k in w.remote && r.1.remote[k] == w.remote[k])
  {
    if c.base.executed then (c, w)
    else
      var cleared := DeleteNamespace(w.(scene := []), e, RemoteKeys.Namespace(c.base.ctx.sessionId));
      (c.(snapshots := c.snapshots + TaggedSnapshots(e, w.scene), base := c.base.(executed := true)), cleared)
  }

  /** `undo`: guarded; re-adds every recorded object and re-writes every
      recorded record, all under the command's own key. */
  function Undo(c: Cmd, w: World, e: Engine): (r: (Cmd, World))
    ensures !c.base.executed ==> r == (c, w)
    ensures c.base.executed ==>
      && r.0 == c.(base := c.base.(executed := false))
      && r.1 == RestoreAll(c.base, w, e, c.snapshots)
  {
    if !c.base.executed then (c, w)
    else (c.(base := c.base.(executed := false)), RestoreAll(c.base, w, e, c.snapshots))
  }

  /** `getType`. */
  function TypeName(c: Cmd): string {
    "clear"
  }

  /** `getData`: the number and ids of all snapshots, and the command's id. */
  function GetData(c: Cmd): (j: Json)
    ensures j.Object?
    ensures Lookup(j.fields, "clearedObjectsCount") == Some(Num(|c.snapshots| as real))
    ensures Lookup(j.fields, "clearedObjectIds") == Some(IdList(c.snapshots))
    ensures Lookup(j.fields, "objectId") == Some(Str(c.base.objectId))
  {
    Object(Assign(Assign([Field("clearedObjectsCount", Num(|c.snapshots| as real))],
                         "clearedObjectIds", IdList(c.snapshots)),
                  "objectId", Str(c.base.objectId)))
  }

  /** Restoring the snapshots gives back exactly the tagged objects. */
  lemma {:induction false} RestoredTagged(e: Engine, s: seq<Obj>)
    ensures Restored(TaggedSnapshots(e, s)) == TaggedOnly(s)
  {
    if s != [] {
      var p := s[..|s| - 1];
      RestoredTagged(e, p);
      var v, vp := TaggedSnapshots(e, s), TaggedSnapshots(e, p);
      assert Restored(v) == Restored(vp) + Restored(v[|vp|..]);
    }
  }

  /** The first execute/undo cycle brings back the tagged objects, in their
      order, and drops the untagged ones. */
  lemma FirstCycleKeepsTaggedOnly(c: Cmd, w: World, e: Engine)
    requires !c.base.executed && c.snapshots == []
    ensures var r1 := Execute(c, w, e);
            var r2 := Undo(r1.0, r1.1, e);
            r2.1.scene == TaggedOnly(w.scene)
  {
    var r1 := Execute(c, w, e);
    assert r1.0.snapshots == TaggedSnapshots(e, w.scene);
    RestoredTagged(e, w.scene);
    assert Undo(r1.0, r1.1, e).1.scene == [] + Restored(r1.0.snapshots);
  }

  /** After the first cycle the session's namespace holds at most one entry,
      the command's own, and that holds the last snapshot's record. */
  lemma FirstCycleLeavesOneEntry(c: Cmd, w: World, e: Engine)
    requires !c.base.executed && c.snapshots == [] && e.online
    ensures var r1 := Execute(c, w, e);
            var r2 := Undo(r1.0, r1.1, e);
            var v := TaggedSnapshots(e, w.scene);
            && (forall k | k in r2.1.remote && RemoteKeys.Under(k, RemoteKeys.Namespace(c.base.ctx.sessionId)) ::
                  k == Key(c.base))
            && (v != [] ==> Key(c.base) in r2.1.remote && r2.1.remote[Key(c.base)] == Clean(v[|v| - 1].data))
  {
    var r1 := Execute(c, w, e);
    var b := r1.0.base;
    assert Key(b) == Key(c.base);
    var w0 := r1.1.(scene := r1.1.scene + Restored(r1.0.snapshots));
    assert Undo(r1.0, r1.1, e).1.remote == SaveEach(b, w0, e, r1.0.snapshots).remote;
  }

  /** Redo then undo again restores duplicates: one tagged object, two
      cycles, and the canvas holds it twice. */
  lemma SecondCycleDuplicates(c: Cmd, a: Obj, e: Engine)
    requires !c.base.executed && c.snapshots == [] && Tagged(a)
    ensures var r1 := Execute(c, World([a], map[]), e);
            var r2 := Undo(r1.0, r1.1, e);
            var r3 := Execute(r2.0, r2.1, e);
            var r4 := Undo(r3.0, r3.1, e);
            r4.1.scene == [a, a] && |r4.0.snapshots| == 2
  {
    FirstPass(c, a, e);
    var r1 := Execute(c, World([a], map[]), e);
    var r2 := Undo(r1.0, r1.1, e);
    SecondPass(r2.0, r2.1, a, e);
  }

  /** The first cycle over a canvas holding one tagged object records one
      snapshot of it and puts it back. */
  lemma FirstPass(c: Cmd, a: Obj, e: Engine)
    requires !c.base.executed && c.snapshots == [] && Tagged(a)
    ensures var r1 := Execute(c, World([a], map[]), e);
            var r2 := Undo(r1.0, r1.1, e);
            && !r2.0.base.executed && r2.0.snapshots == [Take(e, a)] && r2.1.scene == [a]
  {
    assert [a][..0] == [];
    assert TaggedSnapshots(e, [a]) == [Take(e, a)];
    Cycle(c, World([a], map[]), e);
  }

  /** A second cycle over that canvas records a second snapshot and puts the
      object back twice. */
  lemma SecondPass(d: Cmd, w: World, a: Obj, e: Engine)
    requires !d.base.executed && Tagged(a) && d.snapshots == [Take(e, a)] && w.scene == [a]
    ensures var r3 := Execute(d, w, e);
            var r4 := Undo(r3.0, r3.1, e);
            r4.1.scene == [a, a] && |r4.0.snapshots| == 2
  {
    assert [a][..0] == [];
    assert TaggedSnapshots(e, [a]) == [Take(e, a)];
    Cycle(d, w, e);
    var snaps := [Take(e, a), Take(e, a)];
    assert Restored(snaps) == [a, a];
  }

  /** One execute/undo cycle: the objects snapshotted by this pass join all
      earlier snapshots, and the canvas ends up holding every one of them. */
  lemma Cycle(c: Cmd, w: World, e: Engine)
    requires !c.base.executed
    ensures var r1 := Execute(c, w, e);
            var r2 := Undo(r1.0, r1.1, e);
            && !r2.0.base.executed
            && r2.0.snapshots == c.snapshots + TaggedSnapshots(e, w.scene)
            && r2.1.scene == Restored(r2.0.snapshots)
  {
    var r1 := Execute(c, w, e);
    assert r1.1.scene == [];
    assert Undo(r1.0, r1.1, e).1.scene == [] + Restored(r1.0.snapshots);
  }

  /** Store failures are caught: whether the store accepts requests changes
      neither the command's state nor the scene, and a failing store is left
      as it was. */
  lemma StoreFailureIsContained(c: Cmd, w: World, e: Engine)
    ensures Execute(c, w, e.(online := false)).0 == Execute(c, w, e.(online := true)).0
    ensures Execute(c, w, e.(online := false)).1.scene == Execute(c, w, e.(online := true)).1.scene
    ensures Execute(c, w, e.(online := false)).1.remote == w.remote
    ensures Undo(c, w, e.(online := false)).0 == Undo(c, w, e.(online := true)).0
    ensures Undo(c, w, e.(online := false)).1.scene == Undo(c, w, e.(online := true)).1.scene
    ensures Undo(c, w, e.(online := false)).1.remote == w.remote
  {
    SnapshotsIgnoreStore(e.(online := false), e.(online := true), w.scene);
  }

  /** Taking snapshots depends on the serialiser only. */
  lemma {:induction false} SnapshotsIgnoreStore(e1: Engine, e2: Engine, s: seq<Obj>)
    requires e1.toObject == e2.toObject
    ensures TaggedSnapshots(e1, s) == TaggedSnapshots(e2, s)
  {
    if s != [] {
      SnapshotsIgnoreStore(e1, e2, s[..|s| - 1]);
    }
  }
}
