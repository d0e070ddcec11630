/** command-manager.ts: the bounded linear undo/redo history. The history
    holds the commands' states; what running a command does to them and to
    the world is supplied by the caller, so the manager is generic in both.
    A command's `execute` or `undo` may throw after changing things; the
    outcome carries the states either way. */
module CommandManager {

  /** What one call of `execute` or `undo` ended in. */
  datatype Attempt<C, W> = Completed(cmd: C, world: W) | Raised(cmd: C, world: W)

  /** `history`, `currentIndex` and `maxHistorySize`. */
  datatype History<C> = History(entries: seq<C>, current: int, maxSize: int)

  /** `getHistoryInfo`'s record. */
  datatype Info = Info(total: nat, currentIndex: int, canUndo: bool, canRedo: bool)

  const DefaultMaxSize: int := 50

  /** The states the manager keeps to: the cursor points at an entry or just
      before the first, and the history fits its bound. */
  predicate Valid<C>(h: History<C>) {
    1 <= h.maxSize && -1 <= h.current < |h.entries| <= h.maxSize
  }

  /** The constructor: empty, cursor before the first entry. */
  function Create<C>(maxSize: int): (h: History<C>)
    ensures h.entries == [] && h.current == -1 && h.maxSize == maxSize
    ensures 1 <= maxSize ==> Valid(h)
  {
    History([], -1, maxSize)
  }

  predicate CanUndo<C>(h: History<C>) {
    h.current >= 0
  }

  predicate CanRedo<C>(h: History<C>) {
    h.current < |h.entries| - 1
  }

  /** A fresh history offers neither undo nor redo. */
  lemma FreshOffersNothing<C>(maxSize: int)
    ensures !CanUndo(Create<C>(maxSize)) && !CanRedo(Create<C>(maxSize))
  {
  }

  /** How `Array.prototype.slice` reads an index: negative counts from the
      end, and the result is clamped into the array. */
  function SliceIndex(k: int, len: nat): (i: nat)
    ensures i <= len
    ensures 0 <= k <= len ==> i == k
    ensures -(len as int) <= k < 0 ==> i == len + k
    ensures k > len ==> i == len
    ensures k < -(len as int) ==> i == 0
  {
    if k < 0 then (if len + k < 0 then 0 else len + k)
    else if k > len then len else k
  }

  /** `s.slice(start, end)`. */
  function Slice<T>(s: seq<T>, start: int, end: int): (r: seq<T>)
    ensures 0 <= start <= end <= |s| ==> r == s[start..end]
  {
    var i, j := SliceIndex(start, |s|), SliceIndex(end, |s|);
    if i <= j then s[i..j] else []
  }

  /** `s.slice(start)`. */
  function SliceFrom<T>(s: seq<T>, start: int): (r: seq<T>)
    ensures 0 <= start <= |s| ==> r == s[start..]
    ensures -|s| <= start < 0 ==> r == s[|s| + start..]
    ensures start > |s| ==> r == []
    ensures start < -|s| ==> r == s
  {
    s[SliceIndex(start, |s|)..]
  }

  /** The newest `n` entries of `s` (all of them when there are fewer): the
      reference for the capped history. */
  function Newest<T>(s: seq<T>, n: nat): (r: seq<T>)
    ensures |r| == if |s| <= n then |s| else n
    ensures forall i | 0 <= i < |r| :: r[i] == s[|s| - |r| + i]
  {
    if |s| <= n then s else s[|s| - n..]
  }

  /** `executeCommand` once `execute` has returned: the redo tail goes, the
      command is appended, and an overlong history keeps its newest
      `maxHistorySize` entries. */
  function Push<C>(h: History<C>, c: C): (h': History<C>)
    ensures h'.maxSize == h.maxSize
  {
    var kept := if h.current < |h.entries| - 1 then Slice(h.entries, 0, h.current + 1) else h.entries;
    var grown := History(kept + [c], h.current + 1, h.maxSize);
    if |grown.entries| > h.maxSize
    then History(SliceFrom(grown.entries, -h.maxSize), h.maxSize - 1, h.maxSize)
    else grown
  }

  /** `executeCommand(command)`: `outcome` is what `command.execute()` did. A
      command that throws is not recorded; the world keeps what it did before
      throwing. */
  function ExecuteCommand<C, W>(h: History<C>, outcome: Attempt<C, W>): (r: (History<C>, W))
    ensures r.1 == outcome.world
    ensures outcome.Raised? ==> r.0 == h
    ensures outcome.Completed? ==> r.0 == Push(h, outcome.cmd)
  {
    match outcome
    case Completed(c, w) => (Push(h, c), w)
    case Raised(_, w) => (h, w)
  }

  /** `undo()`: with nothing to undo, false and nothing changes. Otherwise the
      entry under the cursor is undone; the cursor steps back only if that
      did not throw. A cursor past the end reads `undefined`, whose `undo`
      throws. */
  function Undo<C, W>(h: History<C>, w: W, undo: (C, W) -> Attempt<C, W>): (r: (History<C>, W, bool))
    ensures !CanUndo(h) ==> r == (h, w, false)
    ensures r.0.maxSize == h.maxSize && |r.0.entries| == |h.entries|
    ensures r.2 ==> CanUndo(h) && r.0.current == h.current - 1
    ensures !r.2 ==> r.0.current == h.current
    ensures forall i | 0 <= i < |h.entries| && i != h.current :: r.0.entries[i] == h.entries[i]
    ensures 0 <= h.current < |h.entries| ==>
      && r.0.entries[h.current] == undo(h.entries[h.current], w).cmd
      && r.1 == undo(h.entries[h.current], w).world
      && (r.2 <==> undo(h.entries[h.current], w).Completed?)
  {
    if !CanUndo(h) then (h, w, false)
    else if h.current >= |h.entries| then (h, w, false)
    else
      var outcome := undo(h.entries[h.current], w);
      var entries := h.entries[h.current := outcome.cmd];
      match outcome
      case Completed(_, w') => (h.(entries := entries, current := h.current - 1), w', true)
      case Raised(_, w') => (h.(entries := entries), w', false)
  }

  /** `redo()`: with nothing to redo, false and nothing changes. Otherwise the
      entry after the cursor is executed again; if that throws the cursor is
      put back. A cursor index below zero reads `undefined`, which throws. */
  function Redo<C, W>(h: History<C>, w: W, execute: (C, W) -> Attempt<C, W>): (r: (History<C>, W, bool))
    ensures !CanRedo(h) ==> r == (h, w, false)
    ensures r.0.maxSize == h.maxSize && |r.0.entries| == |h.entries|
    ensures r.2 ==> CanRedo(h) && r.0.current == h.current + 1
    ensures !r.2 ==> r.0.current == h.current
    ensures forall i | 0 <= i < |h.entries| && i != h.current + 1 :: r.0.entries[i] == h.entries[i]
    ensures CanRedo(h) && 0 <= h.current + 1 ==>
      && r.0.entries[h.current + 1] == execute(h.entries[h.current + 1], w).cmd
      && r.1 == execute(h.entries[h.current + 1], w).world
      && (r.2 <==> execute(h.entries[h.current + 1], w).Completed?)
  {
    if !CanRedo(h) then (h, w, false)
    else if h.current + 1 < 0 then (h, w, false)
    else
      var next := h.current + 1;
      var outcome := execute(h.entries[next], w);
      var entries := h.entries[next := outcome.cmd];
      match outcome
      case Completed(_, w') => (h.(entries := entries, current := next), w', true)
      case Raised(_, w') => (h.(entries := entries), w', false)
  }

  /** `clearHistory()`. */
  function ClearHistory<C>(h: History<C>): (h': History<C>)
    ensures h'.entries == [] && h'.current == -1 && h'.maxSize == h.maxSize
    ensures !CanUndo(h') && !CanRedo(h')
  {
    h.(entries := [], current := -1)
  }

  /** `getHistoryInfo()`. */
  function GetInfo<C>(h: History<C>): (i: Info)
    ensures i.total == |h.entries| && i.currentIndex == h.current
    ensures i.canUndo == CanUndo(h) && i.canRedo == CanRedo(h)
  {
    Info(|h.entries|, h.current, CanUndo(h), CanRedo(h))
  }

  /** An empty valid history is exactly one that offers neither undo nor
      redo. */
  lemma EmptyIffStuck<C>(h: History<C>)
    requires Valid(h)
    ensures GetInfo(h).total == 0 <==> !GetInfo(h).canUndo && !GetInfo(h).canRedo
  {
  }

  /** `getHistoryDetails()`: each entry's type and data, in order. */
  function Details<C, D>(h: History<C>, typeOf: C -> string, dataOf: C -> D): (r: seq<(string, D)>)
    ensures |r| == |h.entries|
    ensures forall i | 0 <= i < |r| :: r[i] == (typeOf(h.entries[i]), dataOf(h.entries[i]))
  {
    seq(|h.entries|, i requires 0 <= i < |h.entries| => (typeOf(h.entries[i]), dataOf(h.entries[i])))
  }

  /** The number of entries of type `t`, counted front to back. */
  function CountOfType<C>(s: seq<C>, typeOf: C -> string, t: string): (n: nat)
    ensures n <= |s|
  {
    if s == [] then 0
    else (if typeOf(s[0]) == t then 1 else 0) + CountOfType(s[1..], typeOf, t)
  }

  /** `getCommandCount(commandType)`. */
  function CommandCount<C>(h: History<C>, typeOf: C -> string, t: string): (n: nat)
    ensures n <= |h.entries|
    ensures n == multiset(TypesOf(h.entries, typeOf))[t]
  {
    CountMatchesMultiset(h.entries, typeOf, t);
    CountOfType(h.entries, typeOf, t)
  }

  /** The types of the entries, in order. */
  function TypesOf<C>(s: seq<C>, typeOf: C -> string): (r: seq<string>)
    ensures |r| == |s|
    ensures forall i | 0 <= i < |s| :: r[i] == typeOf(s[i])
  {
    seq(|s|, i requires 0 <= i < |s| => typeOf(s[i]))
  }

  /** The filter count is the multiplicity of the type among the entries'
      types. */
  lemma {:induction false} CountMatchesMultiset<C>(s: seq<C>, typeOf: C -> string, t: string)
    ensures CountOfType(s, typeOf, t) == multiset(TypesOf(s, typeOf))[t]
  {
    if s != [] {
      CountMatchesMultiset(s[1..], typeOf, t);
      assert TypesOf(s, typeOf) == [typeOf(s[0])] + TypesOf(s[1..], typeOf);
    }
  }

  /** A successful `executeCommand` on a valid history: the redo tail is
      gone, the command is the newest entry under the cursor, nothing is left
      to redo, and the bound holds, the oldest entries dropping out first. */
  lemma PushSpec<C>(h: History<C>, c: C)
    requires Valid(h)
    ensures var h' := Push(h, c);
            && Valid(h')
            && h'.entries == Newest(h.entries[..h.current + 1] + [c], h.maxSize)
            && h'.entries[|h'.entries| - 1] == c
            && h'.current == |h'.entries| - 1
            && CanUndo(h') && !CanRedo(h')
  {
    var kept := h.entries[..h.current + 1];
    assert h.current == |h.entries| - 1 ==> kept == h.entries;
    var grown := kept + [c];
    if |grown| > h.maxSize {
      assert |grown| == h.maxSize + 1;
      assert SliceFrom(grown, -h.maxSize) == grown[1..];
    }
  }

  /** `undo` and `redo` keep a history valid. */
  lemma UndoRedoKeepValid<C, W>(h: History<C>, w: W, run: (C, W) -> Attempt<C, W>)
    requires Valid(h)
    ensures Valid(Undo(h, w, run).0)
    ensures Valid(Redo(h, w, run).0)
  {
  }

  /** On a valid history, undo fails only for want of something to undo or
      because the command threw, and likewise redo. */
  lemma FailuresExplained<C, W>(h: History<C>, w: W, run: (C, W) -> Attempt<C, W>)
    requires Valid(h)
    ensures !Undo(h, w, run).2 <==> !CanUndo(h) || run(h.entries[h.current], w).Raised?
    ensures !Redo(h, w, run).2 <==> !CanRedo(h) || run(h.entries[h.current + 1], w).Raised?
  {
  }

  /** The operations a user drives the manager with. */
  datatype Step<C> = DoCommand(c: C, fails: bool) | UndoStep | RedoStep | ClearStep

  /** A history and a world after a run of steps; `exec` and `undo` say what a
      command does when run or undone. */
  function Replay<C, W>(h: History<C>, w: W, steps: seq<Step<C>>,
                        exec: (C, W) -> Attempt<C, W>, undo: (C, W) -> Attempt<C, W>): (r: (History<C>, W))
    ensures r.0.maxSize == h.maxSize
    decreases |steps|
  {
    if steps == [] then (h, w)
    else
      var next: (History<C>, W) := match steps[0]
        case DoCommand(c, fails) =>
          var o := exec(c, w);
          ExecuteCommand(h, if fails then Raised(o.cmd, o.world) else o)
        case UndoStep => var r := Undo(h, w, undo); (r.0, r.1)
        case RedoStep => var r := Redo(h, w, exec); (r.0, r.1)
        case ClearStep => (ClearHistory(h), w);
      Replay(next.0, next.1, steps[1..], exec, undo)
  }

  /** Any run of steps keeps a valid history valid. */
  lemma {:induction false} ReplayKeepsValid<C, W>(h: History<C>, w: W, steps: seq<Step<C>>,
                                                  exec: (C, W) -> Attempt<C, W>, undo: (C, W) -> Attempt<C, W>)
    requires Valid(h)
    ensures Valid(Replay(h, w, steps, exec, undo).0)
    decreases |steps|
  {
    if steps != [] {
      match steps[0]
      case DoCommand(c, fails) =>
        var o := exec(c, w);
        if !fails && o.Completed? {
          PushSpec(h, o.cmd);
        }
        var next := ExecuteCommand(h, if fails then Raised(o.cmd, o.world) else o);
        ReplayKeepsValid(next.0, next.1, steps[1..], exec, undo);
      case UndoStep =>
        UndoRedoKeepValid(h, w, undo);
        var r := Undo(h, w, undo);
        ReplayKeepsValid(r.0, r.1, steps[1..], exec, undo);
      case RedoStep =>
        UndoRedoKeepValid(h, w, exec);
        var r := Redo(h, w, exec);
        ReplayKeepsValid(r.0, r.1, steps[1..], exec, undo);
      case ClearStep =>
        ReplayKeepsValid(ClearHistory(h), w, steps[1..], exec, undo);
    }
  }

  /** A new command after two undos replaces the undone ones:
      `[A, B, C]` with the cursor on `A` becomes `[A, D]`. */
  lemma BranchReplacesRedoTail<C>(a: C, b: C, c: C, d: C)
    ensures Push(History([a, b, c], 0, DefaultMaxSize), d) == History([a, d], 1, DefaultMaxSize)
  {
    assert Slice([a, b, c], 0, 1) == [a];
  }

  /** With room for two, a third command pushes out the oldest. */
  lemma OverflowDropsOldest<C>(a: C, b: C, c: C)
    ensures Push(History([a, b], 1, 2), c) == History([b, c], 1, 2)
  {
    assert SliceFrom([a, b, c], -2) == [b, c];
  }

  /** A bound of zero bounds nothing: `slice(-0)` is `slice(0)`, so the
      history keeps every command while the cursor sits before the first,
      leaving the newest command to redo rather than to undo. */
  lemma ZeroBoundKeepsAll<C>(a: C)
    ensures Push(Create<C>(0), a) == History([a], -1, 0)
    ensures !CanUndo(Push(Create<C>(0), a)) && CanRedo(Push(Create<C>(0), a))
  {
    assert SliceFrom([a], 0) == [a];
  }
}
