# Whiteboard command core in Dafny

This project models the editing core of a browser whiteboard. Users draw freehand
strokes, rectangles, circles, lines and text on a fabric.js canvas. Every drawing
is mirrored into a remote store under `drawings/{sessionId}/paths/{objectId}`.
Each edit is a *command* with an `execute`/`undo` pair. A bounded linear
history (`CommandManager`) records the commands for undo and redo. A controller
(`WhiteboardManager`) holds the tool, colour and width, turns gestures into
commands, and shows a dashed preview ghost while a shape is dragged
(`PreviewCommand`).

The model is functional:

- **World.** `Scene.World` is the canvas's ordered object list (`scene`) plus
  the remote store (`remote`). The store is a flat map from full key to a
  JSON-like value.
- **Objects.** A scene object is its shape plus its optional `firebaseId` tag.
  Object identity is value equality: `canvas.remove(obj)` removes the first
  equal object.
- **Engine.** `Scene.Engine` stands for the engine services the core calls but
  does not define: `toObject`, `intersectsWithObject`, `Path.fromObject`, and
  the square root in the circle radius. It also carries a flag that says whether
  store requests currently succeed. A failed request is caught in the source, so
  in the model it is a store left unchanged.
- **Commands.** Each command is a datatype. Its `Execute` and `Undo` are pure
  functions from a command and a world to a new command and world.
  `Commands.Command` closes the `Command` interface over the five kinds.
- **History.** `CommandManager.History` is generic in the command type. The
  outcome of a command's `execute` or `undo` is passed in, and it is either
  `Completed` or `Raised`. This covers the manager's `try`/`catch` rollback. The
  manager's `slice` calls are modelled with JavaScript's index rules, including
  `slice(-0)`.
- **Board.** `WhiteboardManager.Board` is the controller's state. The model's
  commands never throw, so the board runs them as `Completed`.

Two behaviours of the code are modelled as written, and their consequences are
proved:

- **Undo writes to one key.** Eraser and clear `undo` write every snapshot
  through `saveToFirebase`, which always targets the *command's own* key. The
  erased objects' entries are therefore not restored
  (`EraserCommand.FirstCycleLosesEntries`, `ClearCommand.FirstCycleLeavesOneEntry`).
- **Snapshots accumulate.** The snapshot lists are never reset, so redo followed
  by undo restores duplicates (`EraserCommand.SecondCycleDuplicates`,
  `ClearCommand.SecondCycleDuplicates`).

The inverse laws are therefore stated for the first execute/undo cycle only.

Four more behaviours of the code shape the model:

- **Clear keeps only tagged objects.** `ClearCommand` snapshots only objects that
  carry a `firebaseId`. Untagged objects are removed and never come back
  (`ClearCommand.FirstCycleKeepsTaggedOnly`).
- **A deferred path settles on its own.** A path whose creation returns a
  promise is marked executed only when the promise resolves. An undo before that
  is a no-op and does not cancel the resolution
  (`PathCommand.PendingUndoDoesNotCancel`). The callback holds the command
  itself, so the path appears even after the command has left the history
  (`WhiteboardManager.OrphanedPathStillAppears`).
- **New text is empty.** A text command created without text holds `''`.
- **Text edits reach the recorded command.** The `editing:exited` handler
  belongs to the text command itself, so the edited object is what a later
  undo removes (`WhiteboardManager.EditedTextUndone`).

## Model

| member | source | states |
|---|---|---|
| JsonData.Clean | src/whiteboard/commands/BaseCommand.ts:43-63 | The cleaned value contains no `undefined` anywhere. `null`/`undefined` become `null`. Arrays keep their length. Objects keep exactly the names of their defined properties, in order. Booleans, numbers and strings are unchanged. |
| JsonData.DropUndefined | src/whiteboard/commands/BaseCommand.ts:54-58 | Exactly the properties of the input whose value is not `undefined` survive: each kept one is an input property, and each defined input property is kept. A record without `undefined` values is returned unchanged. |
| JsonData.DropUndefinedAppend | src/whiteboard/commands/BaseCommand.ts:54-58 | Filtering a concatenation filters each part and keeps their order, so the surviving properties stay in input order. |
| JsonData.CleanKeepsDefined | src/whiteboard/commands/BaseCommand.ts:43-63 | A value containing no `undefined` is a fixed point of the cleaner. The proof is by induction over arrays and records. |
| JsonData.CleanFixedPoints | src/whiteboard/commands/BaseCommand.ts:43-63 | The cleaner leaves a value unchanged if and only if the value contains no `undefined`. |
| JsonData.CleanIdempotent | src/whiteboard/commands/BaseCommand.ts:43-63 | Cleaning twice equals cleaning once. |
| JsonData.LookupFound | src/whiteboard/commands/PathCommand.ts:112-115 | A property read finds a value exactly when the name is among the record's property names. |
| JsonData.LookupFirst | src/whiteboard/commands/PathCommand.ts:112-115 | A property read returns the value of the first property with that name, and nothing when there is none. |
| JsonData.Assign | src/whiteboard/commands/PathCommand.ts:112-115 | `{...record, key: v}`: reading `key` gives `v`, and every other name reads as before. The record grows by one only when `key` was absent. |
| RemoteKeys.DecimalString | src/whiteboard/commands/BaseCommand.ts:12 | A timestamp is rendered as a non-empty string of decimal digits whose value, read back in base ten, is the timestamp. There is no leading zero, and from 10 upwards there are at least two digits. |
| RemoteKeys.DecimalStringInjective | src/whiteboard/commands/BaseCommand.ts:12 | Distinct timestamps render as distinct strings. |
| RemoteKeys.DefaultObjectId | src/whiteboard/commands/BaseCommand.ts:12 | An explicit non-empty id is kept verbatim. A missing or empty one becomes `userId_timestamp`. The id is never empty. |
| RemoteKeys.GeneratedIdsDiffer | src/whiteboard/commands/BaseCommand.ts:12 | One user's generated ids differ whenever their timestamps differ. |
| RemoteKeys.PathKeyInjective | src/whiteboard/commands/BaseCommand.ts:27 | Within a session, the store key determines the object id. |
| RemoteKeys.PathKeyUnderNamespace | src/whiteboard/commands/ClearCommand.ts:35 | Every object key of a session lies under `drawings/{sessionId}/paths`, the node that clear deletes. |
| RemoteKeys.DeleteTree | src/whiteboard/commands/ClearCommand.ts:35-38 | Removing a store node removes exactly the entries at or below it. Every other entry keeps its value. |
| Scene.RemoveFirst | src/whiteboard/commands/BaseCommand.ts:91-93 | `canvas.remove`: an absent object leaves the scene unchanged. A present one shortens the scene by one. |
| Scene.FirstIndex | src/whiteboard/commands/BaseCommand.ts:91-93 | The position of the first copy of an object: no earlier element equals it, and it is inside the list exactly when the object is present. |
| Scene.RemoveFirstAt | src/whiteboard/commands/BaseCommand.ts:91-93 | Removing a present object cuts out the element at its first position. The elements before and after keep their order. |
| Scene.RemoveFirstMultiset | src/whiteboard/commands/BaseCommand.ts:91-93 | Removal takes out exactly one copy of the object, if there is one, and nothing else. |
| Scene.RemoveFirstTagged | src/whiteboard/commands/BaseCommand.ts:97-111 | Removal by id with no object carrying that tag leaves the scene unchanged. |
| Scene.RemoveFirstTaggedSplits | src/whiteboard/commands/BaseCommand.ts:97-111 | Removal by id removes exactly the first object tagged with the id. The objects before and after it keep their order. |
| Scene.ReplaceFirst | src/whiteboard/commands/TextCommand.ts:105-106 | Mutating an object keeps the scene's length, leaves a scene without the object unchanged, and as a multiset swaps exactly one copy of the old object for the new. |
| Scene.ReplaceFirstAt | src/whiteboard/commands/TextCommand.ts:105-106 | The mutated object keeps its place in the stacking order: the first copy of the old object is overwritten and every other position keeps its object. |
| Scene.DeleteNamespace | src/whiteboard/commands/ClearCommand.ts:35-38 | When the store accepts the request, no entry under the namespace remains and entries outside it are kept. A failed request changes nothing. |
| BaseCommand.Create | src/whiteboard/commands/BaseCommand.ts:10-13 | A new command is unexecuted. Its id follows the explicit-or-generated rule. |
| BaseCommand.SaveToRemote | src/whiteboard/commands/BaseCommand.ts:23-38 | The cleaned data lands under the command's own key. No other key changes. A failed request leaves everything unchanged. |
| BaseCommand.RemoveFromRemote | src/whiteboard/commands/BaseCommand.ts:65-80 | The command's own key is deleted and no other key changes. A failed request leaves everything unchanged. |
| BaseCommand.AddToCanvas | src/whiteboard/commands/BaseCommand.ts:82-86 | The object is tagged with the command's id and appended to the scene. The store is untouched. |
| BaseCommand.RemoveFromCanvas | src/whiteboard/commands/BaseCommand.ts:88-116 | A given object is removed by equality. Without one, the first object tagged with the command's id is removed. The store is untouched. |
| ShapeCommand.Create | src/whiteboard/commands/ShapeCommand.ts:8-11 | A new shape command is unexecuted, holds no object, and takes its id from the drawing data. |
| ShapeCommand.RectangleBetween | src/whiteboard/commands/ShapeCommand.ts:68-82 | The rectangle's top-left is the min corner of the two points. It covers both points and is at least 5 wide and 5 high. When the drag exceeds 5 on an axis, that side is exactly the drag. Fill is transparent; stroke and width come from the data. |
| ShapeCommand.CircleBetween | src/whiteboard/commands/ShapeCommand.ts:84-98 | The radius is half the distance between the points. `left + radius` and `top + radius` are the midpoint. Fill is transparent. |
| ShapeCommand.LineBetween | src/whiteboard/commands/ShapeCommand.ts:100-107 | The line's endpoints are the two points, verbatim. |
| ShapeCommand.CreateShape | src/whiteboard/commands/ShapeCommand.ts:51-66 | A shape is built if and only if both points are present and the tool is rectangle, circle or line. Its kind matches the tool. |
| ShapeCommand.Execute | src/whiteboard/commands/ShapeCommand.ts:13-22 | Executing again is a no-op. With no shape built, nothing changes and the command stays unexecuted. Otherwise exactly one tagged object is appended, its serialisation is written under the own key, every other key keeps its presence and its value, and the command becomes executed. |
| ShapeCommand.Undo | src/whiteboard/commands/ShapeCommand.ts:24-34 | Undo is a no-op unless executed. Otherwise it removes the object (or the first tagged one), deletes the own key, keeps every other key and its value, and clears the flag. |
| ShapeCommand.TypeNameIdentifiesTool | src/whiteboard/commands/ShapeCommand.ts:36-38 | Two `shape_{tool}` names are equal exactly when the tools are. No shape name equals `path`, `text`, `eraser` or `clear`. |
| ShapeCommand.StyleFields | src/whiteboard/commands/ShapeCommand.ts:42-44 | The style part of the data holds the tool's name, the colour and the width, and no point or id. |
| ShapeCommand.GetData | src/whiteboard/commands/ShapeCommand.ts:40-49 | The data reports the tool's name, the colour, the width, both points (`undefined` when absent) and the command's id. |
| ShapeCommand.NoShapeNoEffect | src/whiteboard/commands/ShapeCommand.ts:13-22 | An arrow (or other non-shape tool) or a missing point leaves the world unchanged and the command unexecuted. |
| ShapeCommand.ExecuteThenUndoRestores | src/whiteboard/commands/ShapeCommand.ts:13-34 | The first execute followed by undo gives back the world exactly, when the key was unused and the object was not already on the canvas. |
| ShapeCommand.UndoAfterExecute | src/whiteboard/commands/ShapeCommand.ts:24-34 | After a first execute, undo returns the original scene and the store minus the own key. The object is kept for redo. |
| ShapeCommand.UndoThenRedoReproduces | src/whiteboard/commands/ShapeCommand.ts:13-34 | Execute, undo, execute reproduces the command and the world of the first execute. |
| ShapeCommand.StoreFailureIsContained | src/whiteboard/commands/BaseCommand.ts:23-80 | Whether store requests fail changes neither the command's state nor the scene. A failing store is left as it was. |
| PathCommand.Create | src/whiteboard/commands/PathCommand.ts:8-11 | A new path command is unexecuted, with no object and nothing in flight. |
| PathCommand.Configure | src/whiteboard/commands/PathCommand.ts:125-131 | Fill is empty. Stroke is the record's stroke when truthy, otherwise `#000000`. Width is the record's width when truthy, otherwise 5. |
| PathCommand.ZeroWidthBecomesFive | src/whiteboard/commands/PathCommand.ts:129 | A stroke width of 0 is falsy, so the configured width is 5. |
| PathCommand.Materialise | src/whiteboard/commands/PathCommand.ts:16-20 | The configured object is appended with the own tag, and the raw record (not the engine's serialisation) is written under the own key. Every other key keeps its presence and its value. The command becomes executed. |
| PathCommand.Execute | src/whiteboard/commands/PathCommand.ts:13-24 | Executing again is a no-op. A ready object is materialised at once. A promise leaves the world unchanged and the command unexecuted, with one more creation in flight. |
| PathCommand.Resolve | src/whiteboard/commands/PathCommand.ts:26-38 | A settling creation with an object materialises it, whatever the flag. A failed one only lowers the in-flight count. |
| PathCommand.Undo | src/whiteboard/commands/PathCommand.ts:88-105 | Undo is a no-op unless executed. Otherwise it removes the object, deletes the own key, keeps every other key and its value, and clears the flag. |
| PathCommand.GetData | src/whiteboard/commands/PathCommand.ts:111-116 | The data is the record with `objectId` set to the command's id. Every other property reads as recorded. |
| PathCommand.PendingUndoDoesNotCancel | src/whiteboard/commands/PathCommand.ts:26-34 | While a creation is pending, undo is a no-op. When the creation then settles with an object, the object still appears and the command becomes executed. |
| PathCommand.ExecuteThenUndoRestores | src/whiteboard/commands/PathCommand.ts:13-105 | A synchronous first execute followed by undo gives back the world, when the key was unused and the object was not on the canvas. |
| PathCommand.StoreFailureIsContained | src/whiteboard/commands/BaseCommand.ts:23-80 | Store failures change neither the command nor the scene, and a failing store is left as it was. |
| TextCommand.Create | src/whiteboard/commands/TextCommand.ts:8-11 | A new text command is unexecuted and holds no object. |
| TextCommand.TrimStart | src/whiteboard/commands/TextCommand.ts:95 | The result is the input with its leading white space removed: a suffix, every dropped character is white space, and the result does not start with white space. |
| TextCommand.TrimEnd | src/whiteboard/commands/TextCommand.ts:95 | The result is the input with its trailing white space removed: a prefix, every dropped character is white space, and the result does not end with white space. |
| TextCommand.Trim | src/whiteboard/commands/TextCommand.ts:95 | `trim()` is the slice of the input between its leading and trailing white-space runs. Everything cut off is white space, and a non-empty result neither starts nor ends with white space. |
| TextCommand.TrimEmptyIffBlank | src/whiteboard/commands/TextCommand.ts:95-98 | `trim()` is empty if and only if every character is ECMAScript white space. |
| TextCommand.CreateText | src/whiteboard/commands/TextCommand.ts:62-78 | A text object is built exactly when there is a start point. It sits at that point, holds the given text or `''`, and is filled with the colour. |
| TextCommand.Execute | src/whiteboard/commands/TextCommand.ts:13-24 | Execute never writes to the store. Without a start point nothing changes. Otherwise one tagged text object is appended and the command becomes executed. |
| TextCommand.EditExit | src/whiteboard/commands/TextCommand.ts:92-109 | Ending an edit with blank text removes the object and writes nothing. Other text updates the object in place and writes its serialisation under the own key. Every other key keeps its presence and its value. |
| TextCommand.Undo | src/whiteboard/commands/TextCommand.ts:26-46 | Undo is a no-op unless executed. Otherwise it removes the object and always deletes the own key, whether or not it was written. Every other key keeps its presence and its value. |
| TextCommand.GetData | src/whiteboard/commands/TextCommand.ts:52-60 | The data reports the tool's name, the colour, the start point (`undefined` when absent), the text or `''` when none was given, and the command's id. |
| TextCommand.BlankTextIsDiscarded | src/whiteboard/commands/TextCommand.ts:92-102 | Execute and then a blank edit leave the world exactly as before, and the following undo changes nothing further. |
| TextCommand.TextWrittenOnce | src/whiteboard/commands/TextCommand.ts:104-107 | Execute writes nothing. A non-blank first edit adds exactly the command's own key to the store. |
| TextCommand.StoreFailureIsContained | src/whiteboard/commands/BaseCommand.ts:23-80 | Store failures change neither the command nor the scene, and a failing store is left as it was. |
| Snapshots.SaveEach | src/whiteboard/commands/EraserCommand.ts:53-59 | Writing the snapshots one by one through `saveToFirebase` leaves the own key holding the last snapshot's record. No other key changes. |
| Snapshots.RestoreAll | src/whiteboard/commands/EraserCommand.ts:49-63 | The restoring undo appends every snapshot's object, re-tagged with its id, and does all its store writes on the own key. |
| EraserCommand.Create | src/whiteboard/commands/EraserCommand.ts:10-13 | A new eraser command is unexecuted, has a generated id, and has no snapshots. |
| EraserCommand.Survivors | src/whiteboard/commands/EraserCommand.ts:21-25 | No object that stays is erasable (not the stroke, intersecting it, tagged). |
| EraserCommand.Victims | src/whiteboard/commands/EraserCommand.ts:21-31 | Every snapshot taken is of an erasable object. |
| EraserCommand.VictimObjects | src/whiteboard/commands/EraserCommand.ts:21-34 | The objects the walk removes are exactly the erasable objects of the scan: each one is a scanned erasable object, and every erasable scanned object is among them. |
| EraserCommand.SplitIsPermutation | src/whiteboard/commands/EraserCommand.ts:21-40 | Survivors and erased objects together are, as a multiset, exactly the scanned objects. The stroke is never erased as a victim. |
| EraserCommand.Execute | src/whiteboard/commands/EraserCommand.ts:15-47 | Executing again is a no-op. Otherwise the snapshots grow by the victims in scene order, the scene keeps the survivors minus the stroke, and every recorded id's key is deleted when something was erased. |
| EraserCommand.Scan | src/whiteboard/commands/EraserCommand.ts:21-40 | The step-by-step `forEach` yields the survivors, the appended snapshots, and the key deletions of the declarative definition. |
| EraserCommand.ExecuteStepwise | src/whiteboard/commands/EraserCommand.ts:15-47 | `execute` written as the guard, the walk and the stroke removal gives the same command and world as `Execute`. |
| EraserCommand.Undo | src/whiteboard/commands/EraserCommand.ts:49-63 | Undo is a no-op unless executed. Otherwise it clears the flag and restores every snapshot through the shared undo. |
| EraserCommand.GetData | src/whiteboard/commands/EraserCommand.ts:69-75 | The data reports the count and the ids of all snapshots, and the command's id. |
| EraserCommand.RestoredVictims | src/whiteboard/commands/EraserCommand.ts:53-55 | Restoring the victims' snapshots gives back exactly the erased objects, in order, with their tags. |
| EraserCommand.FirstCycleRestoresScene | src/whiteboard/commands/EraserCommand.ts:15-63 | After the first execute and undo, the scene is the original scene minus the stroke, as a multiset. |
| EraserCommand.ExecuteDeletesRecordedKeys | src/whiteboard/commands/EraserCommand.ts:77-84 | When something was erased, no key of a recorded id survives execute. |
| EraserCommand.UndoWritesOwnKeyOnly | src/whiteboard/commands/EraserCommand.ts:53-59 | Undo changes no key but the command's own, which ends up holding the last snapshot's record. |
| EraserCommand.ErasedKeyStaysGone | src/whiteboard/commands/EraserCommand.ts:15-63 | An erased object's key that is not the command's own is absent after the first execute and undo. |
| EraserCommand.FirstCycleLosesEntries | src/whiteboard/commands/EraserCommand.ts:15-63 | After the first cycle, each erased object's key (other than the own key) is still absent. The own key holds the last snapshot's record. |
| EraserCommand.Cycle | src/whiteboard/commands/EraserCommand.ts:27-31 | Each execute/undo cycle appends that pass's victims to all earlier snapshots and re-adds them all. |
| EraserCommand.SecondCycleDuplicates | src/whiteboard/commands/EraserCommand.ts:15-63 | One tagged object under the stroke, after two cycles, appears twice on the canvas, with two snapshots recorded. |
| EraserCommand.StoreFailureIsContained | src/whiteboard/commands/EraserCommand.ts:77-84 | Store failures change neither the command nor the scene, and a failing store is left as it was. |
| ClearCommand.Create | src/whiteboard/commands/ClearCommand.ts:9-11 | A new clear command is unexecuted, has a generated id, and has no snapshots. |
| ClearCommand.TaggedSnapshots | src/whiteboard/commands/ClearCommand.ts:19-29 | Only tagged objects are snapshotted. |
| ClearCommand.TaggedOnly | src/whiteboard/commands/ClearCommand.ts:19-29 | The kept objects are all tagged and are no more than the scene. |
| ClearCommand.TaggedOnlyKeeps | src/whiteboard/commands/ClearCommand.ts:19-29 | A scene object is kept exactly when it is tagged. |
| ClearCommand.Execute | src/whiteboard/commands/ClearCommand.ts:13-42 | Executing again is a no-op. Otherwise every tagged object is appended to the snapshots, the scene becomes empty (untagged objects included), and no key under the session's namespace remains. Keys outside it are kept with their values, and no key is added. |
| ClearCommand.Undo | src/whiteboard/commands/ClearCommand.ts:44-58 | Undo is a no-op unless executed. Otherwise it clears the flag and restores every snapshot through the shared undo. |
| ClearCommand.GetData | src/whiteboard/commands/ClearCommand.ts:64-70 | The data reports the count and the ids of all snapshots, and the command's id. |
| ClearCommand.RestoredTagged | src/whiteboard/commands/ClearCommand.ts:44-58 | Restoring the snapshots gives back exactly the tagged objects, in order. |
| ClearCommand.FirstCycleKeepsTaggedOnly | src/whiteboard/commands/ClearCommand.ts:13-58 | After the first execute and undo, the scene is the original's tagged objects in order. Untagged ones are lost. |
| ClearCommand.FirstCycleLeavesOneEntry | src/whiteboard/commands/ClearCommand.ts:13-58 | After the first cycle, the only key left in the session's namespace is the command's own, holding the last snapshot's record. |
| ClearCommand.Cycle | src/whiteboard/commands/ClearCommand.ts:13-58 | Each execute/undo cycle appends that pass's tagged objects to all earlier snapshots and puts them all back on the canvas. |
| ClearCommand.SecondCycleDuplicates | src/whiteboard/commands/ClearCommand.ts:13-58 | One tagged object, after two cycles, appears twice on the canvas, with two snapshots recorded. |
| ClearCommand.StoreFailureIsContained | src/whiteboard/commands/ClearCommand.ts:35-38 | Store failures change neither the command nor the scene, and a failing store is left as it was. |
| PreviewCommand.Create | src/whiteboard/commands/PreviewCommand.ts:10-15 | A new preview command shows nothing and keeps the given settings. |
| PreviewCommand.InitialShape | src/whiteboard/commands/PreviewCommand.ts:64-134 | A ghost exists exactly for rectangle, circle and line. It is a 20×20 box or a radius-10 circle at (x-10, y-10), or a 20-long horizontal line from the point. It uses the colour and a stroke width of max(2, width). |
| PreviewCommand.Remove | src/whiteboard/commands/PreviewCommand.ts:46-52 | The slot empties. With nothing shown the scene is unchanged. Otherwise exactly one copy of the ghost leaves the scene: the first one, with the objects around it kept in order. |
| PreviewCommand.CreatePreview | src/whiteboard/commands/PreviewCommand.ts:20-31 | The old ghost is removed first. A new untagged ghost is appended exactly for a shape tool, so a preview is shown if and only if the tool is a shape tool. |
| PreviewCommand.Reshape | src/whiteboard/commands/PreviewCommand.ts:139-190 | A rectangle follows the drag as a min-corner box of at least 3×3. A circle keeps the midpoint as centre with radius max(3, half the distance). A line takes the endpoints verbatim. Anything else is unchanged. Style is kept. |
| PreviewCommand.UpdatePreview | src/whiteboard/commands/PreviewCommand.ts:36-41 | With nothing shown nothing changes. Otherwise the shown ghost is reshaped in place and the scene keeps its length. |
| PreviewCommand.CreateThenRemoveRestores | src/whiteboard/commands/PreviewCommand.ts:20-52 | Showing a preview and removing it gives back the scene and the command, when no equal ghost was already on the canvas. |
| PreviewCommand.CreateTwiceKeepsOne | src/whiteboard/commands/PreviewCommand.ts:20-31 | A second `createPreview` leaves one ghost, and the same scene (as a multiset) as creating only the second one. |
| PreviewCommand.UpdateIdempotent | src/whiteboard/commands/PreviewCommand.ts:36-41 | Updating twice with the same drag is the same as updating once. |
| Commands.Execute | src/whiteboard/types/command.ts:1-6 | Dispatching `execute` keeps the command's kind. |
| Commands.Undo | src/whiteboard/types/command.ts:1-6 | Dispatching `undo` keeps the command's kind and always leaves it unexecuted. |
| Commands.TypeOf | src/whiteboard/commands/ShapeCommand.ts:36-38 | A shape's type is `shape_` followed by its tool's name. The type is `path`, `text`, `eraser` or `clear` exactly for a path, text, eraser or clear command (the other `getType` methods: PathCommand.ts:107-109, TextCommand.ts:48-50, EraserCommand.ts:65-67, ClearCommand.ts:60-62). |
| Commands.DataOf | src/whiteboard/types/command.ts:1-6 | Every command's data is a record. |
| Commands.Guarded | src/whiteboard/commands/BaseCommand.ts:8 | For every command, `execute` is a no-op once it has run, and `undo` is a no-op until then. |
| Commands.TypeOfIdentifiesKind | src/whiteboard/managers/command-manager.ts:131-133 | Equal type names mean the same kind of command and, for shapes, the same tool. |
| Commands.StoreFailureDoesNotPropagate | src/whiteboard/commands/BaseCommand.ts:23-80 | For every command, store failures change neither its state nor the scene, and a failing store is left as it was. |
| CommandManager.Create | src/whiteboard/managers/command-manager.ts:4-10 | A new history is empty with the cursor at -1, and it is valid for a positive bound. |
| CommandManager.FreshOffersNothing | src/whiteboard/managers/command-manager.ts:4-10 | A new history offers neither undo nor redo. |
| CommandManager.SliceIndex | src/whiteboard/managers/command-manager.ts:30 | `slice` reads an index inside the array as given and a negative one counted from the end. An index past the end gives the length, and one before the start gives 0. |
| CommandManager.SliceFrom | src/whiteboard/managers/command-manager.ts:30 | `slice(k)` is the suffix from `k`, and from `len + k` for negative `k`. Past the end it is empty, and before the start it is the whole array. |
| CommandManager.Newest | src/whiteboard/managers/command-manager.ts:29-32 | The newest `n` entries, or all of them when there are fewer, in order. |
| CommandManager.Push | src/whiteboard/managers/command-manager.ts:19-32 | Appending after an execute keeps the bound. |
| CommandManager.ExecuteCommand | src/whiteboard/managers/command-manager.ts:15-38 | A throwing `execute` leaves the history unchanged. A completed one pushes the command. The world is whatever the command left. |
| CommandManager.PushSpec | src/whiteboard/managers/command-manager.ts:19-32 | On a valid history, pushing keeps it valid. The entries become the newest `maxSize` of the kept prefix plus the command. The command is last, the cursor is on it, undo is possible and redo is not. |
| CommandManager.BranchReplacesRedoTail | src/whiteboard/managers/command-manager.ts:20-22 | `[A,B,C]` with the cursor at 0, pushing D, gives `[A,D]` with the cursor at 1. |
| CommandManager.OverflowDropsOldest | src/whiteboard/managers/command-manager.ts:29-32 | With room for two, `[A,B]` plus C gives `[B,C]` with the cursor at 1. |
| CommandManager.ZeroBoundKeepsAll | src/whiteboard/managers/command-manager.ts:29-32 | With a bound of 0, `slice(-0)` keeps everything and the cursor is set to -1, so a pushed command can be redone but not undone. |
| CommandManager.Undo | src/whiteboard/managers/command-manager.ts:43-59 | With nothing to undo: false, nothing changes. Otherwise the entry under the cursor is undone and its new state recorded. The result is true exactly when the undo completed, and only then does the cursor step back. |
| CommandManager.Redo | src/whiteboard/managers/command-manager.ts:64-81 | With nothing to redo: false, nothing changes. Otherwise the next entry is executed and its new state recorded. The result is true exactly when it completed; on a throw the cursor is put back. |
| CommandManager.UndoRedoKeepValid | src/whiteboard/managers/command-manager.ts:43-81 | Undo and redo keep `-1 <= currentIndex < length <= maxSize`. |
| CommandManager.FailuresExplained | src/whiteboard/managers/command-manager.ts:43-81 | On a valid history, undo (redo) fails if and only if there is nothing to undo (redo) or the command threw. |
| CommandManager.ReplayKeepsValid | src/whiteboard/managers/command-manager.ts:15-104 | Any run of executes, undos, redos and clears keeps a valid history valid. |
| CommandManager.ClearHistory | src/whiteboard/managers/command-manager.ts:100-104 | Clearing empties the history, resets the cursor to -1, keeps the bound, and offers neither undo nor redo. |
| CommandManager.GetInfo | src/whiteboard/managers/command-manager.ts:86-116 | The info reports the length, the cursor, and whether undo and redo are possible. |
| CommandManager.EmptyIffStuck | src/whiteboard/managers/command-manager.ts:109-116 | A valid history is empty if and only if it offers neither undo nor redo. |
| CommandManager.Details | src/whiteboard/managers/command-manager.ts:121-126 | The details list each entry's type and data, in history order. |
| CommandManager.CommandCount | src/whiteboard/managers/command-manager.ts:131-133 | The count equals the multiplicity of the type among the entries' types, and so is at most the length. |
| CommandManager.CountMatchesMultiset | src/whiteboard/managers/command-manager.ts:131-133 | The front-to-back filter count equals the type's multiplicity among the entries' types. |
| WhiteboardManager.Create | src/whiteboard/managers/whiteboard-manager.ts:12-23 | The controller starts with pen, `#000000` and width 5, no preview command, and an empty history bounded by 50. |
| WhiteboardManager.GetCurrentSettings | src/whiteboard/managers/whiteboard-manager.ts:231-237 | The settings report exactly the controller's tool, colour and width. |
| WhiteboardManager.FreshPreview | src/whiteboard/managers/whiteboard-manager.ts:168-175 | The preview command is replaced by one that shows nothing and carries the current tool, colour and width. Nothing else changes. |
| WhiteboardManager.ModeFor | src/whiteboard/managers/whiteboard-manager.ts:180-209 | Drawing is on exactly for pen and eraser. Selection is on exactly for select. Target finding is skipped for every tool but select. The cursor is `default` only for select. |
| WhiteboardManager.BrushFor | src/whiteboard/managers/whiteboard-manager.ts:214-226 | With a brush: the eraser paints `#FFFFFF` at twice the width, and the pen paints the colour at the width. Other tools, or no brush, leave it unchanged. |
| WhiteboardManager.SetTool | src/whiteboard/managers/whiteboard-manager.ts:28-33 | The tool is stored, the canvas mode follows it, and the preview command is replaced. The brush is left as it was. The world and history are untouched. |
| WhiteboardManager.SetColor | src/whiteboard/managers/whiteboard-manager.ts:38-43 | The colour is stored, the brush is updated for the current tool, and the preview command is replaced. |
| WhiteboardManager.SetWidth | src/whiteboard/managers/whiteboard-manager.ts:48-53 | The width is stored, the brush is updated for the current tool, and the preview command is replaced. |
| WhiteboardManager.StartPreview | src/whiteboard/managers/whiteboard-manager.ts:58-65 | Nothing happens for a non-shape tool or before any setter. Otherwise it delegates to `createPreview`. |
| WhiteboardManager.UpdatePreview | src/whiteboard/managers/whiteboard-manager.ts:70-74 | Without a preview command nothing changes. Otherwise it delegates to the preview command. |
| WhiteboardManager.EndPreview | src/whiteboard/managers/whiteboard-manager.ts:79-83 | Without a preview command nothing changes. Otherwise it delegates to `removePreview`. |
| WhiteboardManager.Perform | src/whiteboard/managers/whiteboard-manager.ts:106-107 | Running a command pushes its executed state onto the history and takes its world. Nothing else in the controller changes. |
| WhiteboardManager.DrawShape | src/whiteboard/managers/whiteboard-manager.ts:95-108 | Nothing happens unless a shape tool is active. Otherwise one shape command built from the current settings is run. |
| WhiteboardManager.ResolvePath | src/whiteboard/commands/PathCommand.ts:26-38 | A deferred creation settles on the command itself: the world becomes the one its resolution gives, whether or not the history still holds it. Every history entry equal to the command becomes the settled command, every other entry is unchanged, and the length, cursor and bound stay. A valid controller stays valid. |
| WhiteboardManager.OrphanedPathStillAppears | src/whiteboard/commands/PathCommand.ts:26-34 | A pending path that has left the history still adds its object and its store entry when it settles, and no history entry can undo it. |
| WhiteboardManager.ExitTextEdit | src/whiteboard/commands/TextCommand.ts:80-109 | Leaving text editing runs the command's own handler: the world becomes the one the edit gives, whether or not the history still holds the command. Every history entry that is this command takes the edited state, every other entry is unchanged, the length, cursor and bound stay, and a valid controller stays valid. |
| WhiteboardManager.EditedTextUndone | src/whiteboard/commands/TextCommand.ts:26-46 | After adding text and typing something non-blank, undo through the controller succeeds, removes the edited object and gives back the scene from before the text was added, when neither the new object nor its edited form was already on the canvas (object identity is value equality). When the store accepts, the text's entry is deleted. |
| WhiteboardManager.Undo | src/whiteboard/managers/whiteboard-manager.ts:154-156 | Undo is delegated unchanged to the history. |
| WhiteboardManager.Redo | src/whiteboard/managers/whiteboard-manager.ts:161-163 | Redo is delegated unchanged to the history. |
| WhiteboardManager.GetHistoryInfo | src/whiteboard/managers/whiteboard-manager.ts:242-244 | The history info is delegated unchanged. |
| WhiteboardManager.ClearHistory | src/whiteboard/managers/whiteboard-manager.ts:249-251 | Clearing the history is delegated unchanged and touches nothing else. |
| WhiteboardManager.NoPreviewBeforeSetters | src/whiteboard/managers/whiteboard-manager.ts:58-65 | Before any setter, `startPreview` returns nothing even for a shape tool, and no preview is shown. |
| WhiteboardManager.SettersKeepValid | src/whiteboard/managers/whiteboard-manager.ts:28-53 | Every setter keeps the controller valid and leaves no preview shown. |
| WhiteboardManager.SetToolOrphansGhost | src/whiteboard/managers/whiteboard-manager.ts:28-33 | Changing the tool while a ghost is shown leaves the ghost on the canvas, and ending the preview no longer reaches it. |
| WhiteboardManager.PreviewIsLocal | src/whiteboard/managers/whiteboard-manager.ts:58-90 | Starting, updating and ending a preview never touch the store, the history or the settings. A ghost is returned exactly for a shape tool with a preview command. |
| WhiteboardManager.DrawShapeRecordsOne | src/whiteboard/managers/whiteboard-manager.ts:95-108 | Under a shape tool, one executed shape command with the current settings becomes the newest entry, with nothing to redo, and its object is the one new scene object. |
| WhiteboardManager.AddText | src/whiteboard/managers/whiteboard-manager.ts:113-124 | Whatever the tool, a text command at the point with the current colour and width and the given text becomes the newest entry of a valid history, which stays valid, offers undo and offers no redo. The world is what the text command's `execute` leaves: one object is appended to the scene and the store is untouched. Settings and preview are untouched. |
| WhiteboardManager.AddPath | src/whiteboard/managers/whiteboard-manager.ts:129-133 | A path command holding the captured record becomes the newest entry of a valid history, which stays valid, offers undo and offers no redo. The world is what the path command's `execute` leaves: a deferred creation changes nothing yet; a ready one appends the configured object tagged with the new id and, when the store accepts, writes the cleaned record under that id's key. Settings and preview are untouched. |
| WhiteboardManager.EraseObjects | src/whiteboard/managers/whiteboard-manager.ts:138-141 | An executed eraser command for the given stroke becomes the newest entry of a valid history, which stays valid, offers undo and offers no redo. The world is what the eraser's `execute` leaves: the scene keeps the survivors minus the stroke. Settings and preview are untouched. |
| WhiteboardManager.ClearCanvas | src/whiteboard/managers/whiteboard-manager.ts:146-149 | The world is what the clear command's `execute` leaves: the canvas is empty, no store key under the session's namespace remains when the store accepts, and every remaining key keeps its value. An executed clear command becomes the newest entry of a valid history, which stays valid, offers undo and offers no redo. Settings and preview are untouched. |
| WhiteboardManager.DrawUndoRedo | src/whiteboard/managers/whiteboard-manager.ts:95-163 | After drawing a shape, undo succeeds, gives back the world from before the drawing, and leaves redo possible. Redo then succeeds and gives back the drawn world and history exactly. |
| WhiteboardManager.RedRectangle | src/whiteboard/managers/whiteboard-manager.ts:95-108 | Dragging from (10,10) to (50,40) in `#FF0000` at width 3 adds a transparent 40×30 box at (10,10), tagged with the new id. Exactly one new store entry holds its record. |

## Left out

- Rendering: `renderAll`, console logging, the text object's opacity changes, `setActiveObject`/`enterEditing`, font settings beyond the values stored, and the preview's dash, opacity, `selectable`, `evented` and `excludeFromExport` styles. None of these change the scene list or the store.
- The fabric constructor guards in `PreviewCommand` (`if (!FabricRect) return null` and the like): the engine is assumed to provide all three shape classes.
- `PathCommand`'s fallback to `createPathDirectly` when `Path.fromObject` is missing or throws: this is folded into the engine's `Ready` answer.
- The engine services (`toObject`, `intersectsWithObject`, `Path.fromObject`, the square root in the radius) are uninterpreted parameters. So is whether the store accepts requests. The missing-`intersectsWithObject` guard is folded into the intersection test.
- ShapeCommand.CircleBetween: the radius is stated only as the engine's half-distance between the points, because `Math.sqrt` on floating point is not modelled. The midpoint relation is proved.
- PreviewCommand.Reshape: the circle radius is likewise max(3, the engine's half-distance).
- JsonData.Clean: the contract states array lengths and object property names, not each cleaned element. Recursive cleaning of elements is given by the definition and by `CleanKeepsDefined`.
- Numbers are Dafny reals: NaN, infinities and IEEE rounding are not modelled. `RemoteKeys.DecimalString` covers non-negative integer timestamps, not JavaScript's exponent notation above 10^21.
- `Date.now()` is a parameter (`now`) of every constructor.
- Remote writes are immediate map updates. Asynchronous completion order, the store's own retries, and the error callbacks are not modelled. A pending path creation is an in-flight counter. Its settlement is a separate step (`WhiteboardManager.ResolvePath`) that may come at any later point.
- The canvas's `getObjects()` hands the eraser and clear loops a copy of the object list. The model scans the scene as it was when execute began.
- Real commands of this model never throw. The history is generic in the outcome, so thrown errors are covered there, but the board always runs commands as completing.
- Object identity is value equality: two equal objects on the canvas are not told apart.
- The `select` and `hand` tools only set the canvas mode: selection-driven moves are not commands in this code.
- The remote-sync bridge, zoom, React components and hooks, authentication and session gating are outside the core modelled here.
