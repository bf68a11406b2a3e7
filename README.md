# Turtle commander and drawing store, in Dafny

This project models the two in-memory state slices of a drawing canvas.

- The **commander** (`Commands`) is a turtle cursor with `coordinates`, a heading `angle` in degrees and a `color`. It is driven by `forward`, `backward`, `rotate` and `setCoordinates`, and it keeps a linear undo/redo log:
  - `commanderStateInstances` holds one snapshot of `(coordinates, angle, color, drawingsIndex)` per command;
  - `instanceIndex` points at the present snapshot;
  - `drawings` holds the line elements the moves produced;
  - `drawingsIndex` counts how many of those lines are visible in the present.
- The **drawing element store** (`Drawings`, and its second copy `LibDrawings`) is the list of freehand shapes. It supports append, replace-the-last and remove-by-identity.

Each commander reducer is written twice:
- as a function from the old state to the new one (`AfterForward`, `AfterBackward`, `AfterRotate`, `AfterSetCoordinates`, `AfterUndo`, `AfterRedo`);
- as a method of the class `Commander`, which updates its fields in place the way the reducer updates its draft, and is proved to produce that function's result.

The lemmas then state what the reducers do to the log. Two predicates frame them:
- `WellFormed` is the bookkeeping invariant. The present index is in range, snapshot 0 is the origin, the recorded drawing counts never decrease, the last snapshot accounts for every drawing, and `drawingsIndex` is the present snapshot's count.
- `Consistent` adds that the cursor fields equal the present snapshot.

The actions also form a tagged type `Command`. `Apply` dispatches one action, and `Run` dispatches a sequence.

What the lemmas show:
- `forward` keeps `WellFormed` from any position and leaves the state `Consistent`.
- `undo` and `redo` keep `WellFormed` and leave the state `Consistent`.
- `backward` and `rotate` do this only when called at the tip. They append to the log without cutting the redo tail, as the code does.
- `Run` dispatches any sequence whose undo and redo reads exist. A run that also calls `backward` and `rotate` only at the tip (`GuardedRun`) keeps `WellFormed`. If its last action is not `setCoordinates`, it ends `Consistent`, so undo followed by redo is the identity at its end.
- Every sequence of moves, turns and cursor placements from the tip is such a run, so a session from the initial state that ends in a move or turn ends consistent, with undo-then-redo the identity.
- Called below the tip, `backward` and `rotate` leave the present index pointing at a stale snapshot from the abandoned branch. Two concrete command sequences show the effect: one makes undo-then-redo change the state, and one restores a snapshot that claims more visible drawings than exist.

The store's list operations are functions on sequences (`Without`, `WithLast`). Both store classes apply them to their `drawables` field.

Elements are objects (`Elements.ElementInfo`, a class with constant fields). Removal is modelled as comparing the stored element references with the payload.

## Model

| member | source | states |
|---|---|---|
| `Commands.Initial` | src/stateManagement/commandsSlice.ts:50-68 | The initial state is consistent and at the tip. Its cursor fields are the origin snapshot `((0,0), 0, "black", 0)`. It holds no drawings, and `instanceIndex` is 0. |
| `Commands.SliceTo` | src/stateManagement/commandsSlice.ts:89-92 | `slice(0, end)` returns a prefix of the sequence. It has exactly `end` elements when `0 <= end <= length`, is the whole sequence when `end >= length`, and counts a negative `end` from the back. |
| `Commands.CreateElement` | src/stateManagement/commandsSlice.ts:26-34 | `createElement` returns a new element that joins `(x1, y1)` to `(x2, y2)`. |
| `Commands.DrawTo` | src/stateManagement/commandsSlice.ts:77-87 | The drawing step `forward` and `backward` share. Its effect on `drawings`, `drawingsIndex` and `coordinates` is stated by `ForwardDiscardsRedoTail` and `BackwardOnlyAppendsSnapshots`. |
| `Commands.AfterForward` | src/stateManagement/commandsSlice.ts:70-98 | The `forward` transition. What it does is stated by `ForwardDiscardsRedoTail` and `ForwardEstablishesConsistency`; `Commander.Forward` is proved to perform it. |
| `Commands.AfterBackward` | src/stateManagement/commandsSlice.ts:100-125 | The `backward` transition. What it does is stated by `BackwardOnlyAppendsSnapshots`, `BackwardAtTipKeepsConsistency` and `BackwardOffTipPointsAtStaleSnapshot`. |
| `Commands.AfterRotate` | src/stateManagement/commandsSlice.ts:126-135 | The `rotate` transition. What it does is stated by `RotateOnlyTurns`, `RotateAtTipKeepsConsistency` and `RotateOffTipPointsAtStaleSnapshot`. |
| `Commands.AfterSetCoordinates` | src/stateManagement/commandsSlice.ts:136-141 | The `setCoordinates` transition. What it does is stated by `SetCoordinatesOnlyMoves`. |
| `Commands.Restore` | src/stateManagement/commandsSlice.ts:142-167 | Copying a snapshot back into the live fields, shared by `undo` and `redo`. Stated by `UndoRestoresPrevious` and `RedoRestoresNext`. |
| `Commands.AfterUndo` | src/stateManagement/commandsSlice.ts:142-154 | The `undo` transition, defined only where the snapshot below exists. Stated by `UndoRestoresPrevious`, `UndoThenRedo` and `Undone`. |
| `Commands.AfterRedo` | src/stateManagement/commandsSlice.ts:155-167 | The `redo` transition, defined only where the snapshot above exists. Stated by `RedoRestoresNext`, `RedoThenUndo` and `Redone`. |
| `Commands.VisibleDrawingsExist` | src/stateManagement/commandsSlice.ts:77 | In a well-formed state, `0 <= drawingsIndex <= drawings.length`. No snapshot up to the present records more visible drawings than the present does. |
| `Commands.ForwardDiscardsRedoTail` | src/stateManagement/commandsSlice.ts:70-98 | After `forward`, `drawings` is the old visible prefix plus the new line, and `drawings.length == drawingsIndex == old drawingsIndex + 1`. The log is the old snapshots up to the present plus the new snapshot, so the redo tail is gone. `instanceIndex` goes up by 1 and is the last index. The cursor moves to the step result, and `angle` and `color` are unchanged. |
| `Commands.ForwardEstablishesConsistency` | src/stateManagement/commandsSlice.ts:70-98 | From any well-formed state, at the tip or not, `forward` leaves a consistent state at the tip. |
| `Commands.BackwardOnlyAppendsSnapshots` | src/stateManagement/commandsSlice.ts:100-125 | `backward` cuts and appends `drawings` exactly as `forward` does, and steps at `angle + 180`. It appends its snapshot to the whole log, never cutting it, and increments `instanceIndex`. |
| `Commands.BackwardAtTipKeepsConsistency` | src/stateManagement/commandsSlice.ts:100-125 | Called at the tip of a well-formed state, `backward` leaves a consistent state at the tip. |
| `Commands.BackwardOffTipPointsAtStaleSnapshot` | src/stateManagement/commandsSlice.ts:118-124 | Called below the tip, `backward` leaves a redo available. The present index then points at the old snapshot just above the cursor. The state matches its snapshot exactly when that stale snapshot equals the new one. |
| `Commands.BackwardOffTipOverrunsDrawings` | src/stateManagement/commandsSlice.ts:107-124 | Start at the origin. Run forward, forward, undo, undo, backward, then redo. The redo restores a snapshot from the abandoned branch with `drawingsIndex == 2`, but only one drawing (the backward line) exists, so the state is not well-formed. |
| `Commands.RotateOnlyTurns` | src/stateManagement/commandsSlice.ts:126-135 | `rotate` adds the payload to `angle` and leaves `coordinates`, `color`, `drawings` and `drawingsIndex` alone. It appends one snapshot without cutting the log and increments `instanceIndex`. |
| `Commands.RotateAtTipKeepsConsistency` | src/stateManagement/commandsSlice.ts:126-135 | Called at the tip of a well-formed state, `rotate` leaves a consistent state at the tip. |
| `Commands.RotateOffTipPointsAtStaleSnapshot` | src/stateManagement/commandsSlice.ts:128-134 | Called below the tip, `rotate` leaves a redo available. The present index points at a stale snapshot. The state matches it exactly when that snapshot equals the new one. |
| `Commands.RotateOffTipBreaksUndoRedo` | src/stateManagement/commandsSlice.ts:126-135 | Start at the origin. Run a move, an undo, then a nonzero rotation. A redo is then still available, and undo followed by redo does not give back the state. |
| `Commands.SetCoordinatesOnlyMoves` | src/stateManagement/commandsSlice.ts:136-141 | `setCoordinates` changes only `coordinates` and pushes no snapshot, so a well-formed state stays well-formed. A consistent state stays consistent exactly when the new point is the recorded one. |
| `Commands.UndoRestoresPrevious` | src/stateManagement/commandsSlice.ts:142-154 | `undo` decrements `instanceIndex` and restores `coordinates`, `angle`, `color` and `drawingsIndex` from the new present snapshot. It leaves both sequences unchanged and always lands in a consistent state. |
| `Commands.RedoRestoresNext` | src/stateManagement/commandsSlice.ts:155-167 | `redo` increments `instanceIndex` and restores the four fields from the new present snapshot. It leaves both sequences unchanged and always lands in a consistent state. |
| `Commands.UndoThenRedo` | src/stateManagement/commandsSlice.ts:142-167 | `undo` then `redo` restores the four fields from the snapshot at the original index. When the state matched that snapshot, the pair is the identity. |
| `Commands.RedoThenUndo` | src/stateManagement/commandsSlice.ts:142-167 | `redo` then `undo` restores the four fields from the snapshot at the original index. When the state matched that snapshot, the pair is the identity. |
| `Commands.Undone` | src/stateManagement/commandsSlice.ts:142-154 | `n` undos in a row lower `instanceIndex` by `n`, leave both sequences unchanged, and (for `n > 0`) leave the fields equal to the present snapshot. |
| `Commands.Redone` | src/stateManagement/commandsSlice.ts:155-167 | `n` redos in a row raise `instanceIndex` by `n`, leave both sequences unchanged, and (for `n > 0`) leave the fields equal to the present snapshot. |
| `Commands.UndoManyThenRedoMany` | src/stateManagement/commandsSlice.ts:142-167 | In a state that matches its present snapshot, `n` undos followed by `n` redos change nothing. |
| `Commands.UndoUndoForwardTruncates` | src/stateManagement/commandsSlice.ts:88-98 | Take a log `[S0, S1, S2, S3]` at index 3. Two undos and a `forward` leave exactly `[S0, S1, S1']` at index 2. The drawings become those visible at `S1` plus the new line. |
| `Commands.Apply` | src/stateManagement/commandsSlice.ts:69-168 | Dispatching one action to its reducer. Stated by `ApplyKeepsWellFormed`. |
| `Commands.Run` | src/stateManagement/commandsSlice.ts:69-168 | Dispatching a sequence of actions in turn, defined for every sequence whose undo and redo reads exist (`Runnable`). Stated by `GuardedRunKeepsWellFormed`, `MovesFromTipGuarded` and `OffTipTurnRunsUnguarded`. |
| `Commands.GuardedRun` | src/stateManagement/commandsSlice.ts:69-168 | A sequence that also calls `backward` and `rotate` only at the tip. Every such sequence can be dispatched. |
| `Commands.ApplyKeepsWellFormed` | src/stateManagement/commandsSlice.ts:69-168 | Dispatch one action whose snapshot read exists, with `backward` and `rotate` only at the tip. The log stays well-formed. Every such action except `setCoordinates` leaves the state consistent, and `setCoordinates` keeps a consistent state consistent exactly when it does not move the cursor. |
| `Commands.GuardedRunKeepsWellFormed` | src/stateManagement/commandsSlice.ts:69-168 | Any sequence of such actions keeps the log well-formed. A non-empty sequence whose last action is not `setCoordinates` ends in a consistent state. |
| `Commands.MovesFromTipGuarded` | src/stateManagement/commandsSlice.ts:70-141 | A sequence of `forward`, `backward`, `rotate` and `setCoordinates` started at the tip is guarded throughout and ends at the tip. Its present index never goes down, and it goes up if the sequence holds any move or turn. |
| `Commands.MovesUndoRedoIdentity` | src/stateManagement/commandsSlice.ts:69-168 | Run moves, turns and cursor placements from the initial state, ending in a move or turn. The state is then consistent at the tip with an undo available, and undo followed by redo is the identity on it. |
| `Commands.UndoRedoIdentityAfterRun` | src/stateManagement/commandsSlice.ts:142-167 | Run any guarded sequence from the initial state whose last action is not `setCoordinates`. The state is then consistent, and wherever an undo is available, undo followed by redo is the identity on it. |
| `Commands.OffTipTurnRunsUnguarded` | src/stateManagement/commandsSlice.ts:126-154 | A move, an undo and a turn from the initial state can be dispatched but are not guarded, and they end below the tip. |
| `Commands.Commander.constructor` | src/stateManagement/commandsSlice.ts:50-68 | The fields start as the initial state. |
| `Commands.Commander.Forward` | src/stateManagement/commandsSlice.ts:70-99 | The fields become `AfterForward` of the old fields. The appended line is a new element from the old coordinates to the new ones. A well-formed state becomes consistent at the tip. |
| `Commands.Commander.Backward` | src/stateManagement/commandsSlice.ts:100-125 | The fields become `AfterBackward` of the old fields, with a new line element. Consistency is kept when the method is called at the tip. |
| `Commands.Commander.Rotate` | src/stateManagement/commandsSlice.ts:126-135 | The fields become `AfterRotate` of the old fields. Consistency is kept when the method is called at the tip. |
| `Commands.Commander.SetCoordinates` | src/stateManagement/commandsSlice.ts:136-141 | Only `coordinates` changes, and well-formedness is kept. |
| `Commands.Commander.Undo` | src/stateManagement/commandsSlice.ts:142-154 | The fields become `AfterUndo` of the old fields. A well-formed state becomes consistent. |
| `Commands.Commander.Redo` | src/stateManagement/commandsSlice.ts:155-167 | The fields become `AfterRedo` of the old fields. A well-formed state becomes consistent. |
| `Elements.ElementInfo.constructor` | src/lib/types.ts:3-9 | An element holds the two endpoints `x1`, `y1`, `x2`, `y2` and the sketch `roughElement` it was built with. |
| `Drawings.Without` | src/stateManagement/drawingsSlice.ts:21-25 | The filter result is never longer than the input. It does not contain `p`, contains only elements of the input, and keeps every element other than `p`. |
| `Drawings.WithLast` | src/stateManagement/drawingsSlice.ts:18-20 | Replacing the last element keeps the length. The last element becomes the payload, and every other index is unchanged. An empty list stays empty. |
| `Drawings.AddThenUpdateLast` | src/stateManagement/drawingsSlice.ts:15-20 | `addDrawable(e)` followed by `updateLastDrawable(e')` gives the same list as `addDrawable(e')`. |
| `Drawings.WithoutConcat` | src/stateManagement/drawingsSlice.ts:21-25 | Removal distributes over concatenation, so the kept elements stay in their original relative order. |
| `Drawings.WithoutMultiset` | src/stateManagement/drawingsSlice.ts:21-25 | Removal deletes every occurrence of `p` and keeps each other element exactly as many times as before. |
| `Drawings.WithoutLength` | src/stateManagement/drawingsSlice.ts:21-25 | The list shrinks by exactly the number of occurrences of `p`. |
| `Drawings.WithoutAbsent` | src/stateManagement/drawingsSlice.ts:21-25 | Removal leaves the list unchanged exactly when `p` is absent. |
| `Drawings.WithoutIdempotent` | src/stateManagement/drawingsSlice.ts:21-25 | Removing `p` twice is the same as removing it once. |
| `Drawings.DrawingsState.constructor` | src/stateManagement/drawingsSlice.ts:11-13 | The initial `drawables` is empty. |
| `Drawings.DrawingsState.AddDrawable` | src/stateManagement/drawingsSlice.ts:15-17 | The payload is appended, and the earlier elements are unchanged. |
| `Drawings.DrawingsState.UpdateLastDrawable` | src/stateManagement/drawingsSlice.ts:18-20 | The list becomes `WithLast` of the old list. |
| `Drawings.DrawingsState.RemoveDrawable` | src/stateManagement/drawingsSlice.ts:21-25 | The list becomes `Without` of the old list. It never grows, and the payload is no longer in it. |
| `LibDrawings.DrawingsState.constructor` | src/lib/stateManagement/drawingsSlice.ts:12-14 | The initial `drawables` is empty. |
| `LibDrawings.DrawingsState.AddDrawable` | src/lib/stateManagement/drawingsSlice.ts:16-18 | The payload is appended, and the prefix is unchanged. |
| `LibDrawings.DrawingsState.UpdateLastDrawable` | src/lib/stateManagement/drawingsSlice.ts:19-21 | The list becomes `WithLast` of the old list: same length, only the last element replaced. |
| `LibDrawings.DrawingsState.RemoveDrawable` | src/lib/stateManagement/drawingsSlice.ts:22-26 | The list becomes `Without` of the old list. It never grows, and the payload is no longer in it. Order, idempotence and the no-op case follow from the `Without` lemmas. |

## Left out

- `giveNewCoordinates` (src/stateManagement/commandsSlice.ts:36-46) uses floating-point `Math.sin` and `Math.cos`. It is the constant field `Commander.giveNewCoordinates`, an arbitrary function of `(x, y, angle, distance)`. No lemma depends on its values. The worked numbers `(0,-10)` and `(-10,0)` therefore cannot be derived.
- `generator.line` from rough.js (src/stateManagement/commandsSlice.ts:24, 32) is a foreign library. Each call yields a new opaque `Drawable` object.
- JavaScript numbers are modelled as unbounded reals and integers. Floating-point rounding of `angle += payload` and of the coordinates is not modelled.
- `undo` and `redo` require the snapshot they read to exist. Outside that range the source reads `undefined` and throws a `TypeError`, and the store keeps its previous state. The model does not model the exception.
- `updateLastDrawable` is modelled as a no-op on an empty list, with no `requires`. The source writes to index `-1`, which creates a plain property and not an array element, so the list of elements is unchanged.
- The `ElementInfo` that both slices under src/stateManagement import from src/components/ui/Canvas/Canvas.tsx is not declared in that file. It is modelled with the fields of `ElementInfo` in src/lib/types.ts: `x1`, `y1`, `x2`, `y2`, `roughElement`. That is the shape `createElement` builds.
- Redux and Immer wiring (`createSlice`, `configureStore`, both store.ts files, the selectors, the action creators) is not modelled. The commands slice imported by src/lib/stateManagement/store.ts is not part of this model.
- UI components (drag wrapper, canvas, commander input, window-size hook, page routing) are not modelled. They hold no state logic beyond DOM arithmetic.
- The viewport pan and zoom transform is not modelled, because none of these source files implement it.
- `backward` and `rotate` are modelled without truncation of the redo tail, exactly as written. Their consistency lemmas require the tip. Their behaviour below the tip is stated by the off-tip lemmas rather than corrected.
- Drawings.DrawingsState.RemoveDrawable, LibDrawings.DrawingsState.RemoveDrawable: the model compares the stored element references with the payload. The source's filter runs inside an Immer draft, whose callback receives draft proxies of the stored objects rather than the objects themselves, so as written `!==` may keep every element. That proxy identity is not modelled.
