/** The world the commands act on: the canvas's ordered object list (the
    scene) and the remote store (a map from full key to record), together with
    the rendering engine's services, which are parameters of the model. */
module Scene {
  import opened Wrappers
  import opened JsonData
  import opened Types
  import RemoteKeys

  /** The engine objects the core builds, with the properties it sets. Objects
      the core only receives (a freehand stroke, an object loaded from the
      store) are `Foreign`. */
  datatype Shape =
    | RectShape(left: real, top: real, width: real, height: real, fill: string, stroke: string, strokeWidth: real)
    | CircleShape(left: real, top: real, radius: real, fill: string, stroke: string, strokeWidth: real)
    | LineShape(x1: real, y1: real, x2: real, y2: real, stroke: string, strokeWidth: real)
    | PathShape(geometry: Json, pathFill: string, pathStroke: Json, pathWidth: Json)
    | TextShape(left: real, top: real, text: string, fill: string, fontFamily: string, fontSize: real)
    | Foreign(data: Json)

  /** A scene object: its shape and the optional `firebaseId` tag joining it to
      a remote entry. */
  datatype Obj = Obj(shape: Shape, tag: Option<string>)

  datatype World = World(scene: seq<Obj>, remote: map<string, Json>)

  /** What `Path.fromObject` hands back: an object now, or a promise. */
  datatype Creation = Ready(geometry: Json) | Deferred

  /** The engine and store services the core calls but does not define:
      `toObject` serialisation, the `intersectsWithObject` test,
      `Path.fromObject`, half the Euclidean distance (`Math.sqrt(..) / 2`), and
      whether store requests currently succeed. */
  datatype Engine = Engine(
    toObject: Shape -> Json,
    intersects: (Shape, Shape) -> bool,
    fromObject: Json -> Creation,
    halfDistance: (Point, Point) -> real,
    online: bool)

  /** The `DrawingContext` fields the core reads. */
  datatype Context = Context(sessionId: string, userId: string)

  /** `if (firebaseId)`: the object carries a non-empty id tag. */
  predicate Tagged(o: Obj) {
    o.tag.Some? && o.tag.value != ""
  }

  /** `canvas.remove(obj)`: drops the first occurrence, if any. */
  function RemoveFirst<T(==)>(s: seq<T>, x: T): (r: seq<T>)
    ensures x !in s ==> r == s
    ensures x in s ==> |r| == |s| - 1
  {
    if s == [] then []
    else if s[0] == x then
      assert s == [s[0]] + s[1..];
      s[1..]
    else
      assert s == [s[0]] + s[1..];
      [s[0]] + RemoveFirst(s[1..], x)
  }

  /** `RemoveFirst` takes out one copy of the element, if there is one, and
      nothing else. */
  lemma {:induction false} RemoveFirstMultiset<T>(s: seq<T>, x: T)
    ensures multiset(RemoveFirst(s, x)) == multiset(s) - multiset{x}
  {
    if s != [] {
      assert s == [s[0]] + s[1..];
      if s[0] != x {
        RemoveFirstMultiset(s[1..], x);
      }
    }
  }

  /** The position of the first copy of `x`, or the length when there is none. */
  function FirstIndex<T(==)>(s: seq<T>, x: T): (i: nat)
    ensures i <= |s|
    ensures forall j | 0 <= j < i :: s[j] != x
    ensures i < |s| <==> x in s
    ensures i < |s| ==> s[i] == x
  {
    if s == [] then 0
    else if s[0] == x then 0
    else
      var rest := FirstIndex(s[1..], x);
      assert forall j | 1 <= j <= rest :: s[j] == s[1..][j - 1];
      1 + rest
  }

  /** `RemoveFirst` cuts out the first copy of the element and keeps the
      order of everything else. */
  lemma {:induction false} RemoveFirstAt<T>(s: seq<T>, x: T)
    requires x in s
    ensures RemoveFirst(s, x) == s[..FirstIndex(s, x)] + s[FirstIndex(s, x) + 1..]
  {
    var i := FirstIndex(s, x);
    assert s == s[..i] + [x] + s[i + 1..];
    RemoveFirstAfter(s[..i], x, s[i + 1..]);
  }

  /** Removing an element that follows a prefix without it takes out exactly
      that element. */
  lemma {:induction false} RemoveFirstAfter<T>(p: seq<T>, x: T, rest: seq<T>)
    requires x !in p
    ensures RemoveFirst(p + [x] + rest, x) == p + rest
  {
    var s := p + [x] + rest;
    if p == [] {
      assert s[0] == x && s[1..] == rest;
    } else {
      var h, t := p[0], p[1..];
      assert s[0] == h && h != x;
      assert s[1..] == t + [x] + rest;
      RemoveFirstAfter(t, x, rest);
      assert p + rest == [h] + (t + rest) by {
        assert p == [h] + t;
      }
    }
  }

  /** Mutating an object in place, seen on the value level: the first occurrence
      of `x` becomes `y`. */
  function ReplaceFirst<T(==)>(s: seq<T>, x: T, y: T): (r: seq<T>)
    ensures |r| == |s|
    ensures x !in s ==> r == s
    ensures x in s ==> multiset(r) == multiset(s) - multiset{x} + multiset{y}
  {
    if s == [] then []
    else if s[0] == x then
      assert s == [s[0]] + s[1..];
      [y] + s[1..]
    else
      assert s == [s[0]] + s[1..];
      [s[0]] + ReplaceFirst(s[1..], x, y)
  }

  /** The replacement takes the old object's place: the first copy of `x` is
      overwritten and every other position keeps its object. */
  lemma {:induction false} ReplaceFirstAt<T>(s: seq<T>, x: T, y: T)
    requires x in s
    ensures ReplaceFirst(s, x, y) == s[FirstIndex(s, x) := y]
  {
    if s[0] != x {
      ReplaceFirstAt(s[1..], x, y);
      assert FirstIndex(s, x) == 1 + FirstIndex(s[1..], x);
    }
  }

  /** Replacing an element appended after a prefix that does not hold it
      replaces the appended copy. */
  lemma ReplaceLast<T>(p: seq<T>, o: T, o': T)
    requires o !in p
    ensures ReplaceFirst(p + [o], o, o') == p + [o']
  {
    var s := p + [o];
    ReplaceFirstAt(s, o, o');
    var i := FirstIndex(s, o);
    assert forall j | 0 <= j < |p| :: s[j] == p[j];
    assert s[i := o'] == p + [o'];
  }

  /** `removeFromCanvas()` with no argument: the first object whose tag equals
      `id` is removed. */
  function RemoveFirstTagged(s: seq<Obj>, id: string): (r: seq<Obj>)
    ensures (forall i | 0 <= i < |s| :: s[i].tag != Some(id)) ==> r == s
  {
    if s == [] then []
    else if s[0].tag == Some(id) then s[1..]
    else [s[0]] + RemoveFirstTagged(s[1..], id)
  }

  /** Exactly the first object tagged `id` goes; everything before and after
      it stays in order. */
  lemma {:induction false} RemoveFirstTaggedSplits(s: seq<Obj>, id: string, i: nat)
    requires i < |s| && s[i].tag == Some(id)
    requires forall j | 0 <= j < i :: s[j].tag != Some(id)
    ensures RemoveFirstTagged(s, id) == s[..i] + s[i + 1..]
  {
    if i > 0 {
      RemoveFirstTaggedSplits(s[1..], id, i - 1);
      assert [s[0]] + (s[1..][..i - 1] + s[1..][i..]) == s[..i] + s[i + 1..];
    }
  }

  /** `set(ref(key), removeUndefinedValues(data))`; a failed request leaves
      the store as it was and is never reported to the caller. */
  function Put(w: World, e: Engine, key: string, data: Json): (w': World)
    ensures w'.scene == w.scene
    ensures e.online ==> key in w'.remote && w'.remote[key] == Clean(data)
    ensures forall k | k != key :: (k in w'.remote <==> k in w.remote)
    ensures forall k | k != key && k in w.remote :: w'.remote[k] == w.remote[k]
    ensures !e.online ==> w' == w
  {
    if e.online then w.(remote := w.remote[key := Clean(data)]) else w
  }

  /** `remove(ref(key))` for a single entry. */
  function Delete(w: World, e: Engine, key: string): (w': World)
    ensures w'.scene == w.scene
    ensures e.online ==> key !in w'.remote
    ensures forall k | k != key :: (k in w'.remote <==> k in w.remote)
    ensures forall k | k != key && k in w.remote :: w'.remote[k] == w.remote[k]
    ensures !e.online ==> w' == w
  {
    if e.online then w.(remote := w.remote - {key}) else w
  }

  /** `remove(ref(namespace))`: the node and every entry below it. */
  function DeleteNamespace(w: World, e: Engine, ns: string): (w': World)
    ensures w'.scene == w.scene
    ensures e.online ==> forall k | k in w'.remote :: !RemoteKeys.Under(k, ns)
    ensures forall k | !RemoteKeys.Under(k, ns) :: (k in w'.remote <==> k in w.remote)
    ensures forall k | k in w'.remote :: k in w.remote && w'.remote[k] == w.remote[k]
    ensures !e.online ==> w' == w
  {
    if e.online then w.(remote := RemoteKeys.DeleteTree(w.remote, ns)) else w
  }
}
