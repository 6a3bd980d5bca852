# Sprite action interpreter of the preview area

This project models the interpreter behind the preview area of a
Scratch-like editor. A sprite carries a motion record: position, rotation,
animation, text bubble and size. Authored blocks are linked into chains
through `next.block`. On an event such as the flag click, the preview runs
every root block whose `type` equals the event. Each block is dispatched on
its type to an updater of the motion record, and then the chain continues
with its `next.block`. Before a run, the preview pushes one snapshot of the
record onto an undo history. `undoAction` pops and restores that snapshot,
and `reset` restores the defaults.

The project has five modules:

- `Sprite` (`Sprite.dfy`) holds the motion record and the block kinds.
  `Step` is the pure updater for each of the 18 dispatched types plus the
  `default` case. A type that clears a field later returns a deferred
  `Timer`, which `Fire` applies when it goes off.
- `Sequencer` (`Sequencer.dfy`) gives the order of application.
  - `Walk` walks one chain along `next.block`, and `WalkRoots` walks the
    matching roots one after another.
  - `Apply` is a reference semantics over a flat list of kinds.
  - The lemmas prove that walking equals applying the flattened list. They
    are stated for any updater, because the order does not depend on what
    a block does.
- `Interpreter` (`Interpreter.dfy`) defines the whole preview state (record,
  history, `playing`, pending timers) and the state functions `Start`,
  `Undo`, `Reset` and `FireAt`, with their properties.
- `Preview` (`Preview.dfy`) is the class `PreviewArea`. It has the four
  state fields and the component's handlers as methods that update those
  fields in place.
  - `StartAnimation`, `UndoAction`, `Reset` and `FireTimer` are each proved
    to produce the state that `Start`, `Undo`, `Reset` or `FireAt` of
    `Interpreter` gives.
  - `RunRoots` and `ExecuteAction` are proved to produce the record and
    timers that `Sequencer.WalkRoots` and `Sequencer.Walk` give.
- `Wrappers` (`Wrappers.dfy`) holds `Option`, used for `null` and absent
  links.

The environment's inputs are parameters. An `Oracle` maps the index of a
step to a `Draw`: the two `Math.random() * 400` coordinates, constrained to
[0, 400), and the pointer angle, constrained to [0, 360).

## Model

| member | source | states |
|---|---|---|
| Sprite.Tag | src/components/PreviewArea.js:62-234 | a kind's type string is one of the dispatched cases exactly when the kind is not `Other`, so an unrecognised block falls to `default` |
| Sprite.Fire | src/components/PreviewArea.js:93-98 | a timer callback changes only the part its effect names; a glide's callback sets `animation` to null, a bubble's callback sets the text to `{"", 0, false}`, which is not visible |
| Sprite.Step | src/components/PreviewArea.js:62-234 | the dispatch of `executeAction`: every case writes only the fields in its type's footprint (x, y, rotation, animation, text, size) and leaves the rest of the record as it was |
| Sprite.Deferred | src/components/PreviewArea.js:93-212 | the timer a block type schedules, read off the kind alone: there is one exactly for glide, glide_random, say_for_seconds and think_for_seconds |
| Sprite.StepFrame | src/components/PreviewArea.js:62-234 | a step schedules a timer exactly for glide, glide_random, say_for_seconds and think_for_seconds, with delay `seconds * 1000` and an effect that resets only a field the step wrote |
| Sprite.StepWrites | src/components/PreviewArea.js:62-234 | the value each case writes: go_to and glide move to the given point, clockwise/anticlockwise add/subtract `angle`, point_in_direction sets `rotation`, point_towards sets the pointer angle and a null animation for `MOUSE_POINTER` and is a no-op otherwise, move/change_x_by/change_y_by add, set_x/set_y set, the text cases set message, duration and flag, change_size adds, an unknown type leaves the record unchanged |
| Sprite.StepTimers | src/components/PreviewArea.js:87-224 | the timer a step schedules is `Deferred` of its kind, whatever the record and draw: glides schedule a clear of the animation and the `_for_seconds` bubbles a clear of the text, each after `seconds * 1000` ms; bare say/think schedule none |
| Sprite.GlideThenClear | src/components/PreviewArea.js:87-98 | a glide followed by its timer leaves the sprite at the target with no animation and everything else as before |
| Sprite.SayForSecondsScenario | src/components/PreviewArea.js:166-184 | `say_for_seconds("Hi", 1)` shows `{"Hi", 1000, false}` and its timer resets the text to `{"", 0, false}` |
| Sprite.RandomTargetInRange | src/components/PreviewArea.js:69-112 | go_to_random and glide_random positions lie in [0, 400) x [0, 400) |
| Sprite.TurnsCancel | src/components/PreviewArea.js:75-86 | in exact arithmetic, clockwise then anticlockwise by the same angle restores the record |
| Sequencer.Steps | src/components/PreviewArea.js:236-237 | a chain's kinds are empty exactly for a missing block, and start with the head block's kind |
| Sequencer.Walk | src/components/PreviewArea.js:59-240 | `executeAction` on a chain: the head block's updater, then the walk of `next.block` on the updated record; a definition, whose properties are `WalkInOrder` and `WalkClock` |
| Sequencer.WalkRoots | src/components/PreviewArea.js:52 | `actions.forEach(executeAction)`: each root's chain walked to its end, in list order; a definition, whose property is `WalkRootsInOrder` |
| Sequencer.WalkClock | src/components/PreviewArea.js:59-240 | every block of a chain takes exactly one draw from the environment |
| Sequencer.ApplyPrefix | src/components/PreviewArea.js:236-240 | the first `n` steps of a list do not depend on the steps after them |
| Sequencer.ApplyAppend | src/components/PreviewArea.js:236-240 | applying a concatenation is applying the first list, then the second from where the first ended, with the timers of both in order |
| Sequencer.ApplyThen | src/components/PreviewArea.js:236-240 | the same for two whole lists, stated over the two partial runs |
| Sequencer.WalkInOrder | src/components/PreviewArea.js:236-240 | walking a chain along `next.block` equals applying its blocks strictly in chain order |
| Sequencer.WalkRootsInOrder | src/components/PreviewArea.js:52 | running the matching roots equals applying the blocks of all their chains, chain after chain in list order |
| Interpreter.Restore | src/components/PreviewArea.js:246-251 | the record undo writes back carries the snapshot's position, rotation, size and text and no animation |
| Interpreter.SnapshotOf | src/components/PreviewArea.js:44-49 | the history entry: the record's position, rotation, size and text, without the animation; its round trips are `Restore` and `RestoreSnapshot` |
| Interpreter.RestoreSnapshot | src/components/PreviewArea.js:44-51 | restoring the snapshot of a record gives that record back with its animation cleared |
| Interpreter.Scheduled | src/components/PreviewArea.js:93-212 | the timers of a list of kinds, read off the kinds alone in step order; there are exactly as many as timed blocks |
| Interpreter.ApplyTimers | src/components/PreviewArea.js:62-234 | the timers a run schedules are exactly `Scheduled` of its kinds, in step order and independent of the record and the draws, so there is one per timed block |
| Interpreter.ApplyFrame | src/components/PreviewArea.js:62-234 | a run whose block types all write inside a set of fields leaves every other field as it was |
| Interpreter.Matching | src/components/PreviewArea.js:39 | a root is selected exactly when it is in `data` and its type equals the event; no more roots than `data` |
| Interpreter.MatchingOne | src/components/PreviewArea.js:39 | a single root is kept exactly when its type equals the event |
| Interpreter.MatchingAppend | src/components/PreviewArea.js:39 | selection distributes over concatenation, so with `MatchingOne` it keeps the roots in `data`'s order, duplicates included, like `data.filter` |
| Interpreter.Start | src/components/PreviewArea.js:36-57 | with no matching root (empty `data` included) the state is unchanged; otherwise the history grows by exactly one entry, the pre-run position, rotation, size and text, `playing` ends false and earlier pending timers are kept |
| Interpreter.StartInOrder | src/components/PreviewArea.js:41-52 | a trigger that runs something gives the record of applying all matching chains' blocks in order, and appends to the pending timers exactly `Scheduled` of those blocks, one per timed block |
| Interpreter.Undo | src/components/PreviewArea.js:243-254 | a no-op on an empty history; otherwise the history loses exactly its top entry, the record equals that entry on position, rotation, size and text and has no animation, and `playing` and the timers are unchanged |
| Interpreter.Reset | src/components/PreviewArea.js:256-266 | the record is the defaults (origin, rotation 0, null animation, empty text, size 0), the history is empty, `playing` is false and pending timers are kept, whatever the prior state |
| Interpreter.FireAt | src/components/PreviewArea.js:176-183 | a firing timer sets the animation to null (glide) or the text to `{"", 0, false}` (bubble) in the current record, changes no other field, leaves history and `playing`, and is removed from the pending timers |
| Interpreter.UndoAfterStart | src/components/PreviewArea.js:41-254 | undo straight after a trigger that ran something restores the pre-trigger position, rotation, size and text and the previous history |
| Interpreter.FireAfterReset | src/components/PreviewArea.js:256-263 | a timer that fires after a reset leaves the default record unchanged |
| Interpreter.ResetForgets | src/components/PreviewArea.js:256-266 | two states with the same pending timers are equal after reset |
| Interpreter.HistoryCount | src/components/PreviewArea.js:42-50 | after any sequence of triggers, undos and resets the history holds one entry per trigger that ran something since the last reset, less the undos that popped one |
| Interpreter.SetXThenChangeY | src/components/PreviewArea.js:146-158 | `set_x(10)` then `change_y_by(5)` from the origin ends at (10, 5) |
| Interpreter.GoToScenario | src/components/PreviewArea.js:36-67 | a flag-clicked script `go_to(50, 80)` from the initial state ends at (50, 80) with one history entry and `playing` false |
| Preview.PreviewArea.constructor | src/components/PreviewArea.js:12-20 | the initial record, an empty history, `playing` false, no timers |
| Preview.PreviewArea.StartAnimation | src/components/PreviewArea.js:36-57 | the new state is `Start` of the old one |
| Preview.PreviewArea.RunRoots | src/components/PreviewArea.js:52 | the record and pending timers become those of walking every root in order; history is untouched; `playing` is false afterwards unless there were no roots |
| Preview.PreviewArea.ExecuteAction | src/components/PreviewArea.js:59-241 | the record and timers become those of walking the chain from this block; `playing` is false at the end of the chain; history is untouched |
| Preview.PreviewArea.UndoAction | src/components/PreviewArea.js:243-254 | the new state is `Undo` of the old one |
| Preview.PreviewArea.Reset | src/components/PreviewArea.js:256-266 | the new state is `Reset` of the old one |
| Preview.PreviewArea.FireTimer | src/components/PreviewArea.js:93-98 | the new state is `FireAt` of the old one for the timer that goes off |

## Left out

- `pointTowardsMouse` reads the DOM (`getBoundingClientRect`) and computes `atan2` in floating point. The model takes its result as the `pointerAngle` of the step's draw, constrained to [0, 360).
- `Math.random()` is replaced by the `Oracle`. Each step gets a draw with both coordinates in [0, 400).
- Numbers are modelled as mathematical reals. JavaScript double rounding, `NaN` and non-numeric `fields` values are not modelled.
- `setTimeout` timing is not modelled.
  - The 10 ms pause between blocks is not modelled: a chain runs to its end before the next root starts.
  - A clearing timer can fire only after the whole trigger. In the source, a timer shorter than the rest of its chain fires between blocks. For example, with `say_for_seconds("A", 0.001)` followed by `say("B")`, the source clears A at 1 ms and shows B at 10 ms, so B stays. In the model, the pending `ClearText` can still clear B afterwards.
  - The source's chains interleave in real time. The model runs them one after another in list order, so it does not capture orders where blocks of two chains alternate.
  - Clearing timers stay pending and may fire in any order, one at a time, through `FireTimer`. Their delays are recorded but not compared.
  - Neither undo nor reset cancels a pending timer, as in the source.
- The snapshot is taken from the current record. The source reads the record captured by `useCallback`, which can be stale when a trigger follows state updates within one render.
- A missing `data` list (`data?.length` on `undefined`) is modelled as the empty list.
- A `next` without a `block` is modelled like a missing `next`.
- `undefined` and `null` for the animation are both `None`.
- A block's `fields` are taken as present and of the right type for its `type`. A block whose fields are missing is not modelled.
- Only the `type` of a block decides its dispatch.
- Event plumbing and rendering are not modelled: the throttled mouse listener, the Space key, listener cleanup, the JSX, `Draggable`, CSS transitions, icons, and disabling the run button while `playing` (src/components/PreviewArea.js:273-351).
- src/components/BlocklyPlayground.js is not part of this model. It configures a toolbox and passes editor data through, with no logic of its own.
- Preview.PreviewArea.RunRoots and Preview.PreviewArea.ExecuteAction take the updater as a parameter. `StartAnimation` always passes `Sprite.Step`, which is the dispatch of `executeAction`.
