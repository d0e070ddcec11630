/** EraserCommand.ts: removes the tagged objects a freehand eraser stroke
    crosses, and the stroke itself. */
module EraserCommand {
  import opened Wrappers
  import opened JsonData
  import opened Scene
  import opened BaseCommand
  import opened Snapshots
  import RemoteKeys

  /** The command: shared state (its id is always generated), the eraser
      stroke, and the snapshots taken so far (never reset). */
  datatype Cmd = Cmd(base: Base, stroke: Obj, snapshots: seq<Snapshot>)

  function Create(ctx: Context, stroke: Obj, now: nat): (c: Cmd)
    ensures !c.base.executed && c.stroke == stroke && c.snapshots == []
    ensures c.base == BaseCommand.Create(ctx, None, now)
  {
    Cmd(BaseCommand.Create(ctx, None, now), stroke, [])
  }

  /** The object is not the stroke, intersects it, and carries an id tag. */
  predicate Erasable(e: Engine, stroke: Obj, o: Obj) {
    o != stroke && e.intersects(o.shape, stroke.shape) && Tagged(o)
  }

  /** The objects of `s` that stay, in order. */
  function Survivors(e: Engine, stroke: Obj, s: seq<Obj>): (r: seq<Obj>)
    ensures |r| <= |s|
    ensures forall i | 0 <= i < |r| :: !Erasable(e, stroke, r[i])
  {
    if s == [] then []
    else
      var last := s[|s| - 1];
      Survivors(e, stroke, s[..|s| - 1]) + (if Erasable(e, stroke, last) then [] else [last])
  }

  /** The snapshots of the objects of `s` that go, in order. */
  function Victims(e: Engine, stroke: Obj, s: seq<Obj>): (r: seq<Snapshot>)
    ensures |r| <= |s|
    ensures forall i | 0 <= i < |r| :: Erasable(e, stroke, r[i].obj)
  {
    if s == [] then []
    else
      var last := s[|s| - 1];
      Victims(e, stroke, s[..|s| - 1]) + (if Erasable(e, stroke, last) then [Take(e, last)] else [])
  }

  /** `execute`: guarded; snapshots and removes every erasable object, deletes
      the keys of all recorded ids when something was erased, removes the
      stroke and sets the flag. The snapshots are appended to the earlier
      ones. */
  function Execute(c: Cmd, w: World, e: Engine): (r: (Cmd, World))
    ensures c.base.executed ==> r == (c, w)
    ensures !c.base.executed ==>
      && r.0 == c.(snapshots := c.snapshots + Victims(e, c.stroke, w.scene), base := c.base.(executed := true))
      && r.1.scene == RemoveFirst(Survivors(e, c.stroke, w.scene), c.stroke)
    ensures !c.base.executed && Victims(e, c.stroke, w.scene) != [] && e.online ==>
      r.1.remote == w.remote - IdKeys(c.base.ctx.sessionId, r.0.snapshots)
    ensures Victims(e, c.stroke, w.scene) == [] || !e.online ==> r.1.remote == w.remote
  {
    if c.base.executed then (c, w)
    else
      var victims := Victims(e, c.stroke, w.scene);
      var snaps := c.snapshots + victims;
      var remote := if victims != [] && e.online then w.remote - IdKeys(c.base.ctx.sessionId, snaps) else w.remote;
      (c.(snapshots := snaps, base := c.base.(executed := true)),
       World(RemoveFirst(Survivors(e, c.stroke, w.scene), c.stroke), remote))
  }

  /** What the walk has done after the first `i` objects of `objects`. */
  predicate Walked(c: Cmd, w: World, e: Engine, i: nat,
                   scene: seq<Obj>, remote: map<string, Json>, snaps: seq<Snapshot>)
    requires i <= |w.scene|
  {
    && snaps == c.snapshots + Victims(e, c.stroke, w.scene[..i])
    && scene == Survivors(e, c.stroke, w.scene[..i]) + w.scene[i..]
    && remote == if Victims(e, c.stroke, w.scene[..i]) != [] && e.online
                 then w.remote - IdKeys(c.base.ctx.sessionId, snaps) else w.remote
  }

  /** One erasing visit keeps `Walked`. */
  lemma EraseVisit(c: Cmd, w: World, e: Engine, i: nat,
                   scene: seq<Obj>, remote: map<string, Json>, snaps: seq<Snapshot>)
    requires i < |w.scene| && Erasable(e, c.stroke, w.scene[i])
    requires Walked(c, w, e, i, scene, remote, snaps)
    ensures var snaps' := snaps + [Take(e, w.scene[i])];
            Walked(c, w, e, i + 1, RemoveFirst(scene, w.scene[i]),
                   if e.online then remote - IdKeys(c.base.ctx.sessionId, snaps') else remote, snaps')
  {
    var o := w.scene[i];
    SplitStep(e, c.stroke, w.scene, i);
    SceneStep(e, c.stroke, w.scene, i);
    assert snaps + [Take(e, o)] == c.snapshots + (Victims(e, c.stroke, w.scene[..i]) + [Take(e, o)]);
    if e.online {
      RemoteStep(c.base.ctx.sessionId, w.remote, remote, snaps, Take(e, o));
    }
  }

  /** A visit that spares the object keeps `Walked` unchanged. */
  lemma SpareVisit(c: Cmd, w: World, e: Engine, i: nat,
                   scene: seq<Obj>, remote: map<string, Json>, snaps: seq<Snapshot>)
    requires i < |w.scene| && !Erasable(e, c.stroke, w.scene[i])
    requires Walked(c, w, e, i, scene, remote, snaps)
    ensures Walked(c, w, e, i + 1, scene, remote, snaps)
  {
    SplitStep(e, c.stroke, w.scene, i);
    SceneStep(e, c.stroke, w.scene, i);
  }

  /** The `forEach` of `execute` step by step: it walks the object list,
      removes each erasable object from the live scene as it meets it, and
      after each removal deletes the keys of every id recorded so far. The
      result is what the declarative filters describe. */
  method Scan(c: Cmd, w: World, e: Engine) returns (scene: seq<Obj>, remote: map<string, Json>, snaps: seq<Snapshot>)
    ensures snaps == c.snapshots + Victims(e, c.stroke, w.scene)
    ensures scene == Survivors(e, c.stroke, w.scene)
    ensures remote == if Victims(e, c.stroke, w.scene) != [] && e.online
                      then w.remote - IdKeys(c.base.ctx.sessionId, snaps) else w.remote
  {
    var sid := c.base.ctx.sessionId;
    scene, remote, snaps := w.scene, w.remote, c.snapshots;
    var i := 0;
    assert w.scene[..0] == [];
    while i < |w.scene|
      invariant 0 <= i <= |w.scene|
      invariant Walked(c, w, e, i, scene, remote, snaps)
    {
      var o := w.scene[i];
      if Erasable(e, c.stroke, o) {
        EraseVisit(c, w, e, i, scene, remote, snaps);
        snaps := snaps + [Take(e, o)];
        scene := RemoveFirst(scene, o);
        if e.online {
          remote := remote - IdKeys(sid, snaps);
        }
      } else {
        SpareVisit(c, w, e, i, scene, remote, snaps);
      }
      i := i + 1;
    }
    assert w.scene[..i] == w.scene;
    assert w.scene[i..] == [];
  }

  /** `execute` as the source writes it: the guard, the walk, then the stroke's
      removal and the flag. It ends in the same command and world as
      `Execute`. */
  method ExecuteStepwise(c: Cmd, w: World, e: Engine) returns (c': Cmd, w': World)
    ensures (c', w') == Execute(c, w, e)
  {
    if c.base.executed {
      return c, w;
    }
    var scene, remote, snaps := Scan(c, w, e);
    c' := c.(snapshots := snaps, base := c.base.(executed := true));
    w' := World(RemoveFirst(scene, c.stroke), remote);
  }

  /** Walking one more object extends the survivors or the victims by it. */
  lemma SplitStep(e: Engine, stroke: Obj, s: seq<Obj>, i: int)
    requires 0 <= i < |s|
    ensures Survivors(e, stroke, s[..i + 1]) ==
              Survivors(e, stroke, s[..i]) + (if Erasable(e, stroke, s[i]) then [] else [s[i]])
    ensures Victims(e, stroke, s[..i + 1]) ==
              Victims(e, stroke, s[..i]) + (if Erasable(e, stroke, s[i]) then [Take(e, s[i])] else [])
  {
    assert s[..i + 1][..i] == s[..i];
  }

  /** The live scene after one more object of the walk. */
  lemma SceneStep(e: Engine, stroke: Obj, s: seq<Obj>, i: int)
    requires 0 <= i < |s|
    ensures var before := Survivors(e, stroke, s[..i]) + s[i..];
            var after := Survivors(e, stroke, s[..i + 1]) + s[i + 1..];
            if Erasable(e, stroke, s[i]) then RemoveFirst(before, s[i]) == after else before == after
  {
    SplitStep(e, stroke, s, i);
    var p := Survivors(e, stroke, s[..i]);
    assert s[i..] == [s[i]] + s[i + 1..];
    assert p + s[i..] == p + [s[i]] + s[i + 1..];
    if Erasable(e, stroke, s[i]) {
      RemoveFirstAfter(p, s[i], s[i + 1..]);
    }
  }

  /** Deleting the keys of all ids so far, after deleting those of an earlier
      prefix, is the same as deleting them all at once. */
  lemma RemoteStep(sid: string, start: map<string, Json>, current: map<string, Json>,
                   before: seq<Snapshot>, next: Snapshot)
    requires current == start || current == start - IdKeys(sid, before)
    ensures current - IdKeys(sid, before + [next]) == start - IdKeys(sid, before + [next])
  {
    IdKeysGrow(sid, before, [next]);
  }

  /** `undo`: guarded; re-adds every recorded object and re-writes every
      recorded record, all under the command's own key. */
  function Undo(c: Cmd, w: World, e: Engine): (r: (Cmd, World))
    ensures !c.base.executed ==> r == (c, w)
    ensures c.base.executed ==>
      && r.0 == c.(base := c.base.(executed := false))
      && r.1 == RestoreAll(c.base, w, e, c.snapshots)
  {
    if !c.base.executed then (c, w)
    else (c.(base := c.base.(executed := false)), RestoreAll(c.base, w, e, c.snapshots))
  }

  /** `getType`. */
  function TypeName(c: Cmd): string {
    "eraser"
  }

  /** `getData`: the number and ids of all snapshots, and the command's id. */
  function GetData(c: Cmd): (j: Json)
    ensures j.Object?
    ensures Lookup(j.fields, "erasedObjectsCount") == Some(Num(|c.snapshots| as real))
    ensures Lookup(j.fields, "erasedObjectIds") == Some(IdList(c.snapshots))
    ensures Lookup(j.fields, "objectId") == Some(Str(c.base.objectId))
  {
    Object(Assign(Assign([Field("erasedObjectsCount", Num(|c.snapshots| as real))],
                         "erasedObjectIds", IdList(c.snapshots)),
                  "objectId", Str(c.base.objectId)))
  }

  /** The erasable objects, in order. */
  function VictimObjects(e: Engine, stroke: Obj, s: seq<Obj>): (r: seq<Obj>)
    ensures |r| <= |s|
    ensures forall o | o in r :: o in s && Erasable(e, stroke, o)
    ensures forall i | 0 <= i < |s| && Erasable(e, stroke, s[i]) :: s[i] in r
  {
    if s == [] then []
    else
      var last := s[|s| - 1];
      VictimObjects(e, stroke, s[..|s| - 1]) + (if Erasable(e, stroke, last) then [last] else [])
  }

  /** Restoring the snapshots gives back the erased objects themselves. */
  lemma {:induction false} RestoredVictims(e: Engine, stroke: Obj, s: seq<Obj>)
    ensures Restored(Victims(e, stroke, s)) == VictimObjects(e, stroke, s)
  {
    if s != [] {
      var p := s[..|s| - 1];
      RestoredVictims(e, stroke, p);
      var v, vp := Victims(e, stroke, s), Victims(e, stroke, p);
      assert Restored(v) == Restored(vp) + Restored(v[|vp|..]);
    }
  }

  /** Survivors and erased objects together are the original objects. */
  lemma {:induction false} SplitIsPermutation(e: Engine, stroke: Obj, s: seq<Obj>)
    ensures multiset(Survivors(e, stroke, s)) + multiset(VictimObjects(e, stroke, s)) == multiset(s)
    ensures stroke !in VictimObjects(e, stroke, s)
  {
    if s != [] {
      var p := s[..|s| - 1];
      var last := s[|s| - 1];
      SplitIsPermutation(e, stroke, p);
      assert s == p + [last];
      assert multiset(s) == multiset(p) + multiset{last};
      if Erasable(e, stroke, last) {
        assert VictimObjects(e, stroke, s) == VictimObjects(e, stroke, p) + [last];
        assert Survivors(e, stroke, s) == Survivors(e, stroke, p);
      } else {
        assert VictimObjects(e, stroke, s) == VictimObjects(e, stroke, p);
        assert Survivors(e, stroke, s) == Survivors(e, stroke, p) + [last];
      }
    }
  }

  /** Removing one copy of an element absent from `gone` commutes with
      appending `gone`. */
  lemma RemoveThenAppend(surv: seq<Obj>, gone: seq<Obj>, x: Obj)
    requires x !in gone
    ensures multiset(RemoveFirst(surv, x) + gone) == multiset(surv + gone) - multiset{x}
  {
    RemoveFirstMultiset(surv, x);
    assert multiset(gone)[x] == 0;
  }

  /** The first execute/undo cycle: undo hands back exactly the erased
      objects, so the scene holds the original objects less the eraser
      stroke (order aside: restored objects come last). */
  lemma FirstCycleRestoresScene(c: Cmd, w: World, e: Engine)
    requires !c.base.executed && c.snapshots == []
    ensures var r1 := Execute(c, w, e);
            var r2 := Undo(r1.0, r1.1, e);
            && r2.0.snapshots == Victims(e, c.stroke, w.scene)
            && multiset(r2.1.scene) == multiset(w.scene) - multiset{c.stroke}
  {
    var s := w.scene;
    var surv, gone := Survivors(e, c.stroke, s), VictimObjects(e, c.stroke, s);
    var r1 := Execute(c, w, e);
    assert r1.0.snapshots == Victims(e, c.stroke, s);
    RestoredVictims(e, c.stroke, s);
    var r2 := Undo(r1.0, r1.1, e);
    assert r2.1.scene == RemoveFirst(surv, c.stroke) + gone;
    SplitIsPermutation(e, c.stroke, s);
    RemoveThenAppend(surv, gone, c.stroke);
  }

  /** Execute removes the entry of every id it records. */
  lemma ExecuteDeletesRecordedKeys(c: Cmd, w: World, e: Engine, k: string)
    requires !c.base.executed && e.online && Victims(e, c.stroke, w.scene) != []
    requires k in IdKeys(c.base.ctx.sessionId, Execute(c, w, e).0.snapshots)
    ensures k !in Execute(c, w, e).1.remote
  {
  }

  /** Undo writes to no key but the command's own. */
  lemma UndoWritesOwnKeyOnly(c: Cmd, w: World, e: Engine)
    requires c.base.executed
    ensures forall k | k != Key(c.base) :: (k in Undo(c, w, e).1.remote <==> k in w.remote)
    ensures e.online && c.snapshots != [] ==>
      Key(c.base) in Undo(c, w, e).1.remote &&
      Undo(c, w, e).1.remote[Key(c.base)] == Clean(c.snapshots[|c.snapshots| - 1].data)
  {
    var w0 := w.(scene := w.scene + Restored(c.snapshots));
    assert Undo(c, w, e).1.remote == SaveEach(c.base, w0, e, c.snapshots).remote;
  }

  /** The first execute/undo cycle does not give the erased objects their
      entries back: each erased key other than the command's own is still
      absent, and the command's own key holds the last snapshot's record. */
  lemma FirstCycleLosesEntries(c: Cmd, w: World, e: Engine)
    requires !c.base.executed && c.snapshots == [] && e.online
    ensures var r1 := Execute(c, w, e);
            var r2 := Undo(r1.0, r1.1, e);
            var v := Victims(e, c.stroke, w.scene);
            && (forall i | 0 <= i < |v| && RemoteKeys.PathKey(c.base.ctx.sessionId, v[i].id) != Key(c.base) ::
                  RemoteKeys.PathKey(c.base.ctx.sessionId, v[i].id) !in r2.1.remote)
            && (v != [] ==> Key(c.base) in r2.1.remote && r2.1.remote[Key(c.base)] == Clean(v[|v| - 1].data))
  {
    var v := Victims(e, c.stroke, w.scene);
    var r1 := Execute(c, w, e);
    var r2 := Undo(r1.0, r1.1, e);
    assert forall i | 0 <= i < |v| && RemoteKeys.PathKey(c.base.ctx.sessionId, v[i].id) != Key(c.base) ::
      RemoteKeys.PathKey(c.base.ctx.sessionId, v[i].id) !in r2.1.remote
    by {
      forall i | 0 <= i < |v| && RemoteKeys.PathKey(c.base.ctx.sessionId, v[i].id) != Key(c.base)
        ensures RemoteKeys.PathKey(c.base.ctx.sessionId, v[i].id) !in r2.1.remote
      {
        ErasedKeyStaysGone(c, w, e, i);
      }
    }
    assert v != [] ==> Key(c.base) in r2.1.remote && r2.1.remote[Key(c.base)] == Clean(v[|v| - 1].data) by {
      assert r1.0.snapshots == v && r1.0.base == c.base.(executed := true);
      UndoWritesOwnKeyOnly(r1.0, r1.1, e);
    }
  }

  /** One erased object's entry, deleted by execute, is not written back by
      the following undo unless it is the command's own key. */
  lemma ErasedKeyStaysGone(c: Cmd, w: World, e: Engine, i: nat)
    requires !c.base.executed && c.snapshots == [] && e.online
    requires i < |Victims(e, c.stroke, w.scene)|
    requires RemoteKeys.PathKey(c.base.ctx.sessionId, Victims(e, c.stroke, w.scene)[i].id) != Key(c.base)
    ensures var r1 := Execute(c, w, e);
            RemoteKeys.PathKey(c.base.ctx.sessionId, Victims(e, c.stroke, w.scene)[i].id) !in Undo(r1.0, r1.1, e).1.remote
  {
    var sid := c.base.ctx.sessionId;
    var v := Victims(e, c.stroke, w.scene);
    var r1 := Execute(c, w, e);
    assert r1.0.snapshots == v && r1.0.base == c.base.(executed := true);
    var k := RemoteKeys.PathKey(sid, v[i].id);
    assert k in IdKeys(sid, r1.0.snapshots);
    ExecuteDeletesRecordedKeys(c, w, e, k);
    UndoWritesOwnKeyOnly(r1.0, r1.1, e);
  }

  /** Redo then undo again restores duplicates: with one tagged object under
      the stroke, two cycles leave that object on the canvas twice. */
  lemma SecondCycleDuplicates(c: Cmd, a: Obj, e: Engine)
    requires !c.base.executed && c.snapshots == []
    requires Tagged(a) && a != c.stroke && e.intersects(a.shape, c.stroke.shape)
    ensures var (c1, w1) := Execute(c, World([a, c.stroke], map[]), e);
            var (c2, w2) := Undo(c1, w1, e);
            var (c3, w3) := Execute(c2, w2, e);
            var (c4, w4) := Undo(c3, w3, e);
            w4.scene == [a, a] && |c4.snapshots| == 2
  {
    var w := World([a, c.stroke], map[]);
    FirstPass(c, a, e);
    var r1 := Execute(c, w, e);
    var r2 := Undo(r1.0, r1.1, e);
    SecondPass(r2.0, r2.1, a, e);
  }

  /** The first cycle over `[a, stroke]` puts `a` back and records it once. */
  lemma FirstPass(c: Cmd, a: Obj, e: Engine)
    requires !c.base.executed && c.snapshots == []
    requires Tagged(a) && a != c.stroke && e.intersects(a.shape, c.stroke.shape)
    ensures var r1 := Execute(c, World([a, c.stroke], map[]), e);
            var r2 := Undo(r1.0, r1.1, e);
            && r2.0.stroke == c.stroke && !r2.0.base.executed
            && r2.0.snapshots == [Take(e, a)] && r2.1.scene == [a]
  {
    assert [a, c.stroke][..1] == [a];
    assert Survivors(e, c.stroke, [a, c.stroke]) == [c.stroke];
    assert Victims(e, c.stroke, [a, c.stroke]) == [Take(e, a)];
    Cycle(c, World([a, c.stroke], map[]), e);
    assert RemoveFirst([c.stroke], c.stroke) == [];
    assert Restored([Take(e, a)]) == [a];
  }

  /** The second cycle, over `[a]` with `a` already recorded, records it again
      and puts it back twice. */
  lemma SecondPass(c: Cmd, w: World, a: Obj, e: Engine)
    requires Tagged(a) && a != c.stroke && e.intersects(a.shape, c.stroke.shape)
    requires !c.base.executed && c.snapshots == [Take(e, a)] && w.scene == [a]
    ensures var r1 := Execute(c, w, e);
            var r2 := Undo(r1.0, r1.1, e);
            r2.1.scene == [a, a] && |r2.0.snapshots| == 2
  {
    assert Survivors(e, c.stroke, [a]) == [];
    assert Victims(e, c.stroke, [a]) == [Take(e, a)];
    Cycle(c, w, e);
    assert Restored([Take(e, a), Take(e, a)]) == [a, a];
  }

  /** One execute/undo cycle from the not-executed state: the snapshots grow by
      this pass's victims, and the scene is what execute left plus every
      snapshot recorded so far. */
  lemma Cycle(c: Cmd, w: World, e: Engine)
    requires !c.base.executed
    ensures var r1 := Execute(c, w, e);
            var r2 := Undo(r1.0, r1.1, e);
            && r2.0.stroke == c.stroke && !r2.0.base.executed
            && r2.0.snapshots == c.snapshots + Victims(e, c.stroke, w.scene)
            && r2.1.scene == RemoveFirst(Survivors(e, c.stroke, w.scene), c.stroke) + Restored(r2.0.snapshots)
  {
  }

  /** Store failures are caught: whether the store accepts requests changes
      neither the command's state nor the scene, and a failing store is left
      as it was. */
  lemma StoreFailureIsContained(c: Cmd, w: World, e: Engine)
    ensures Execute(c, w, e.(online := false)).0 == Execute(c, w, e.(online := true)).0
    ensures Execute(c, w, e.(online := false)).1.scene == Execute(c, w, e.(online := true)).1.scene
    ensures Execute(c, w, e.(online := false)).1.remote == w.remote
    ensures Undo(c, w, e.(online := false)).0 == Undo(c, w, e.(online := true)).0
    ensures Undo(c, w, e.(online := false)).1.scene == Undo(c, w, e.(online := true)).1.scene
    ensures Undo(c, w, e.(online := false)).1.remote == w.remote
  {
    SplitIgnoresStore(e.(online := false), e.(online := true), c.stroke, w.scene);
  }

  /** Which objects go, and what is recorded of them, depends on the
      intersection test and the serialiser only. */
  lemma {:induction false} SplitIgnoresStore(e1: Engine, e2: Engine, stroke: Obj, s: seq<Obj>)
    requires e1.toObject == e2.toObject && e1.intersects == e2.intersects
    ensures Survivors(e1, stroke, s) == Survivors(e2, stroke, s)
    ensures Victims(e1, stroke, s) == Victims(e2, stroke, s)
  {
    if s != [] {
      SplitIgnoresStore(e1, e2, stroke, s[..|s| - 1]);
    }
  }
}
