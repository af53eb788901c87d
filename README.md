# gotask kanban board — a Dafny model

gotask is a terminal kanban board. It starts with three columns ("To Do", "In Progress" and
"Done") or with a board loaded from a JSON snapshot file. The user drives it from the keyboard:

- `a` opens the input field, you type a title, and `enter` appends the title as a new task to the cursor column;
- `d` deletes the task under the cursor;
- `[`/`{` and `]`/`}` carry it to the adjacent column;
- arrows and `hjkl` move the cursor;
- `?` toggles the help line;
- `q`/`ctrl+c` save and quit.

Every change to the board is written back to the snapshot file.

This project models that program's core:

- **`kanban.dfy`** (module `Kanban`): the board and the whole state that `model.Update`
  reads and writes, as values. It includes `Step`, the transition one key press applies. The source's
  `switch msg.String()` is split the same way: control keys go to `ControlSwitch`, and the key groups that
  share a board case map to a `BoardAction` that `Perform` carries out. These are followed by the
  forwarding of the key to the text input in input mode.
- **`properties.dfy`** (module `KanbanProps`): what a key press, and any run of key presses, guarantees.
  - The cursor stays valid and the id counter stays above every id on the board.
  - Enter adds exactly one task, with a fresh id.
  - Delete removes exactly one task and keeps the rest in order.
  - A move conserves the board's tasks.
  - Navigation clamps without wrapping, and the modes gate the keys as stated.
  - Every change to the board is saved, and the program quits only after a successful save.
  - Along any run the created ids strictly increase and are never below an id already on the board.
- **`load.dfy`** (module `Load`): the loop in `loadBoard` that raises the id counter to the
  highest id on a decoded board.
- **`view.dfy`** (module `View`): the content decisions of `View`. These are the loading frame, the
  "No tasks" placeholder, the one line that carries the selection marker, and the optional input dialog,
  error line and help line.
- **`app.dfy`** (module `App`): the running program as a class `Model` whose fields are updated in
  place.
  - Its constructor is `initialModel` with `loadBoard`.
  - `HandleKey` is `Update` for a key message, proved to follow `Kanban.Step` exactly.
  - A ghost log `writes` records every board that `saveBoard` wrote successfully.
  - A few short sessions drive the class through the program's typical scenarios.

The outside world appears as parameters. `Env` carries, for one key press:

- whether the save it may trigger succeeds;
- the clock reading that a new task is stamped with;
- the text that the text-input component holds after the key is forwarded to it.

`LoadOutcome` is what reading and decoding the snapshot file produced.

Behaviour of gotask.go that the model keeps:

- A failed save on `q` keeps the program running with the error shown.
- `d` deletes without confirmation.
- There is no edit mode.
- `esc` discards the buffer.
- A title made only of spaces is accepted, because the code only checks that the buffer is not the empty string.
- The cursor column is bounded by the number of columns on the board.
- The error field is never cleared once set.

## Model

| member | source | states |
|---|---|---|
| Kanban.Max | gotask.go:401-406 | the result is at least both arguments and is one of them |
| Kanban.Min | gotask.go:408-413 | the result is at most both arguments and is one of them |
| Kanban.RemoveAt | gotask.go:218 | the slice idiom `append(s[:i], s[i+1:]...)` drops exactly element `i`: one shorter, the elements before `i` kept, the ones after shifted down by one, and the multiset loses exactly `s[i]` |
| Kanban.Forward | gotask.go:326-330 | forwarding a key to the text input changes neither the board, the cursor, the mode nor the id counter |
| Kanban.AddTask | gotask.go:188-201 | adding a task keeps the cursor valid |
| Kanban.DeleteTask | gotask.go:213-226 | deleting keeps the cursor valid and changes only the board, the cursor task index and the error flag |
| Kanban.MoveTask | gotask.go:268-290 | moving keeps the cursor valid and changes only the board, the cursor and the error flag |
| Kanban.EnterKey | gotask.go:186-205 | the enter case keeps the cursor valid |
| Kanban.VerticalKey | gotask.go:234-248 | up and down keep the cursor valid and change nothing but the cursor task index |
| Kanban.HorizontalKey | gotask.go:250-264 | left and right keep the cursor valid and change nothing but the cursor |
| Kanban.MoveKey | gotask.go:266-318 | the move keys keep the cursor valid |
| Kanban.ControlSwitch | gotask.go:175-211 | the quit, help, enter, `a` and `esc` cases keep the cursor valid |
| Kanban.BoardSwitch | gotask.go:213-318 | the delete, navigation and move cases keep the cursor valid |
| Kanban.Perform | gotask.go:213-318 | each board action keeps the cursor valid |
| Kanban.Step | gotask.go:171-333 | after any key press the cursor names a column and either a task of it or slot 0 of an empty column |
| Kanban.Run | gotask.go:171-333 | after any sequence of key presses the cursor is still valid |
| KanbanProps.AllTasksUpdate | gotask.go:195-196 | replacing one column changes the board's multiset of tasks by exactly the difference between the old and the new column |
| KanbanProps.AllTasksMembers | gotask.go:147-148 | a task is on the board exactly when some column holds it at some position (both directions) |
| KanbanProps.IdsAtMostAllTasks | gotask.go:146-153 | with no id on the board above the counter, every task on the board has an id at most the counter |
| KanbanProps.StepPreservesValid | gotask.go:171-333 | every key press keeps the cursor valid, the counter non-negative and at or above every id on the board, and the buffer empty outside input mode |
| KanbanProps.ControlKeepsValid | gotask.go:175-211 | the control cases keep that invariant |
| KanbanProps.BoardKeepsValid | gotask.go:213-318 | the delete, navigation and move cases keep that invariant |
| KanbanProps.PerformKeepsValid | gotask.go:213-318 | each board action keeps that invariant |
| KanbanProps.AddKeepsIds | gotask.go:189-196 | the new task's id is the new counter, so no id exceeds it |
| KanbanProps.DeleteKeepsIds | gotask.go:213-226 | removing a task keeps every remaining id at most the counter |
| KanbanProps.MoveKeepsIds | gotask.go:266-318 | moving a task keeps every id at most the counter |
| KanbanProps.EnterAddsOneTask | gotask.go:186-205 | enter in input mode with text appends one task (next id, the buffer as title, the clock's time) to the end of the cursor column, keeps every other column, grows the board's multiset of tasks by exactly that task, whose id is above every id already there, increments the counter, clears the buffer, leaves input mode and records a save failure |
| KanbanProps.EnterWithEmptyBuffer | gotask.go:202-204 | enter in input mode with an empty buffer only leaves input mode: the new state is the old one with input mode off |
| KanbanProps.EnterOutsideInputMode | gotask.go:186-187 | enter outside input mode changes nothing |
| KanbanProps.DeleteRemovesOne | gotask.go:213-226 | `d` on a non-empty column removes exactly the task under the cursor. The column keeps its id and title and its other tasks in order, and every other column is unchanged. The board's multiset loses exactly that task. The cursor steps back only when it would point past the end and is above 0. A save failure is recorded. Nothing besides the board, the cursor task index and the error flag changes |
| KanbanProps.DeleteTaskConserves | gotask.go:218 | the removal takes exactly the task under the cursor off the board |
| KanbanProps.DeleteOnEmptyColumn | gotask.go:216 | `d` on an empty column changes nothing |
| KanbanProps.MoveConservesTasks | gotask.go:266-318 | a move key removes the task under the cursor from its column and appends it unchanged to the end of the adjacent column. Both columns keep their id and title, and every other column is unchanged. The board's multiset of tasks is kept, the cursor goes to the moved task and a save failure is recorded. Nothing besides the board, the cursor and the error flag changes |
| KanbanProps.MoveTaskConserves | gotask.go:272-281 | the move itself keeps the board's multiset of tasks |
| KanbanProps.MoveNoOp | gotask.go:266-318 | a move key in input mode, on an empty column or at the edge column leaves the board, the cursor and the error unchanged; outside input mode the whole state is unchanged |
| KanbanProps.UpClamps | gotask.go:234-240 | up moves the cursor one task up, stops at the top and changes nothing but the cursor task index; on an empty column the whole state is unchanged |
| KanbanProps.DownClamps | gotask.go:242-248 | down moves the cursor one task down, stops at the last task and changes nothing but the cursor task index; on an empty column the whole state is unchanged |
| KanbanProps.SidewaysClamps | gotask.go:250-264 | left and right change the column by exactly one when there is such a column, resetting the task index to 0 and changing nothing else, and otherwise change nothing; the column never leaves the board |
| KanbanProps.AddKeyEntersInputMode | gotask.go:207-211 | `a` outside input mode enters input mode and changes nothing else |
| KanbanProps.InputModeKeysGoToBuffer | gotask.go:326-330 | in input mode every key but quit, help, enter and escape leaves everything unchanged except the buffer, which becomes the text input's new value |
| KanbanProps.EscCancels | gotask.go:228-232 | escape in input mode leaves input mode with an empty buffer; outside input mode it changes nothing |
| KanbanProps.HelpToggles | gotask.go:182-184 | `?` flips the help flag in either mode and changes nothing else |
| KanbanProps.QuitSavesFirst | gotask.go:175-180 | `q` and ctrl+c save in either mode, quit exactly when the save succeeds, and record the error exactly when it fails, leaving board, cursor, mode and buffer alone |
| KanbanProps.MutationsAreSaved | gotask.go:175-318 | a key press that changes the board is one that saves; for a saving key the error flag is set exactly when the save fails; other keys leave it alone; the program quits only after a successful save |
| KanbanProps.BoardSwitchSaves | gotask.go:213-318 | the same for the delete, navigation and move cases |
| KanbanProps.PerformSavesChanges | gotask.go:213-318 | the same for each board action |
| KanbanProps.StepLastID | gotask.go:189 | the id counter advances by one exactly when a task is created, and otherwise stays |
| KanbanProps.BoardKeepsLastID | gotask.go:213-318 | no delete, navigation or move case changes the counter |
| KanbanProps.NewIdsFreshAndIncreasing | gotask.go:189 | along any run the ids of the created tasks strictly increase, each is above the starting counter and at most the final one, and each is above every id on the starting board, so a deleted id is never handed out again |
| KanbanProps.NewIdsBounded | gotask.go:189 | every id created along a run lies above the starting counter and at or below the final one, and the counter never decreases |
| KanbanProps.NewIdsIncreasing | gotask.go:189 | the ids created along a run strictly increase |
| KanbanProps.RunAppend | gotask.go:171-333 | running two sequences of key presses one after the other is running their concatenation |
| KanbanProps.TypedAdd | gotask.go:186-211 | in normal mode, `a`, typing a non-empty title and enter do exactly what enter does in input mode with that title in the buffer |
| Load.HighestId | gotask.go:146-153 | the result is at least the starting counter, no task on the board has a larger id, and it is the starting counter or the id of some task: the maximum of the two |
| View.Render | gotask.go:335-370 | width 0 gives the loading frame and nothing else does. Otherwise there is one column view per column with its title as header. An empty column shows the placeholder and only that. A non-empty column has one line per task, with its title, and the line is marked exactly when it is the cursor position, so a valid cursor on a task marks that task. The dialog names the cursor column exactly in input mode, and the error and help lines follow their flags |
| App.Model.constructor | gotask.go:97-156 | the default board, or the decoded one, or the board a decode that failed part-way left; cursor at (0, 0), normal mode, empty buffer, help shown, nothing written yet; the error flag set exactly when reading or decoding failed; the counter is 0 or the highest id on the board; the invariant holds |
| App.Model.SaveBoard | gotask.go:158-165 | the whole board is appended to the log of written boards exactly when the write succeeds |
| App.Model.HandleKey | gotask.go:171-333 | the new state is `Kanban.Step` of the old one, the invariant is kept, and the board is written exactly when the key press saves and the save succeeds |
| App.Model.ControlKey | gotask.go:175-211 | the new state is `ControlSwitch` of the old one, and the method reports exactly the cases that return early |
| App.Model.PerformAction | gotask.go:213-318 | the new state is `Perform` of the old one, and the board is written exactly when the action saves and the save succeeds |
| App.Model.StepWithinColumn | gotask.go:234-248 | the new state is `VerticalKey` of the old one; nothing is written |
| App.Model.StepToColumn | gotask.go:250-264 | the new state is `HorizontalKey` of the old one; nothing is written |
| App.Model.MoveToAdjacent | gotask.go:266-318 | the new state is `MoveKey` of the old one, written when the move happens and the save succeeds |
| App.Model.EnterPressed | gotask.go:186-205 | the new state is `EnterKey` of the old one, written when a task was added and the save succeeds |
| App.Model.DeleteCursorTask | gotask.go:215-225 | the new state is `DeleteTask` of the old one, written when a task was removed and the save succeeds |
| App.Model.MoveCursorTask | gotask.go:269-290 | the new state is `MoveTask` of the old one, written when a task was moved and the save succeeds |
| App.WriteSpecAdded | gotask.go:186-201 | enter with "Write spec" typed on the default board gives the board holding that task, with id 1, in "To Do", and leaves input mode |
| App.LoadOneTask | gotask.go:146-153 | loading a board whose only task has id 1 sets the counter to 1 and leaves everything else at its start value |
| App.OneTaskMovedRight | gotask.go:293-318 | on that board `]` moves the task to "In Progress" with the cursor on it and changes nothing else |
| App.PartialLoadAsWritten | gotask.go:142-144 | after a partial decode the source starts with the partly decoded board, the error set and the counter still 0 |
| App.PartialLoadReusesId | gotask.go:142-153 | with that start on a board holding id 4, the invariant fails at once, and the fourth task added gets id 4 a second time |
| App.LoadSample | gotask.go:146-153 | loading a board holding ids 3, 7 and 5 sets the counter to 7 |

## Left out

- File I/O and JSON are not modelled: reading, decoding, encoding and writing the snapshot, and the home-directory lookup for its path (gotask.go:102-106, 133-144, 158-165). A save is a boolean outcome plus the ghost log `writes`. A load is a `LoadOutcome`.
- How `json.Unmarshal` fills the board is not modelled. A document that is not well-formed JSON leaves the default board (`DecodeFailed`). A field of the wrong type is skipped, and a field whose own decoder fails (a malformed `created_at`) stops decoding; either way `Unmarshal` keeps what it decoded and returns an error, which leaves a partly decoded board (`PartlyDecoded(columns)`). A document without a `columns` field keeps the default columns, which is one of the boards `Decoded(columns)` can carry.
- App.Model.constructor: on a partly decoded board it raises the counter to the highest id, which gotask.go:142-144 skips; the model follows the corrected start-up (see Findings), and `PartialLoadAsWritten` is the start as written.
- App.Model.constructor: requires a decoded or partly decoded board to have at least one column. With zero columns every key that indexes the cursor column, and the column-width division in `View`, would panic.
- View.Render: requires at least one column when the width is known, for the same division. It also requires the cursor column to exist in input mode, for the dialog title.
- The text-input component is not modelled: its editing, `Focus`, `Reset`, `Blink` and placeholder. The buffer value it holds after a forwarded key is the `edited` parameter of `Env`.
- `time.Now` is not modelled. It is the `now` parameter of `Env`, and it is only copied into `createdAt`.
- The window-size message is not modelled. The frame width is a parameter of `View.Render`, and the message forwarded to the text input in input mode is not modelled.
- Styling, colours, borders, the column-width computation, the title bar and joining the columns side by side are not modelled. `Render` returns only the choices that the styling is applied to.
- The Bubble Tea runtime, `Init`, `main`, the returned commands and program exit are not modelled. Quitting is the flag `quitting`.
- Kanban.Run: it keeps applying key presses after `quitting` is set, which the runtime does not do after the quit command. The run lemmas therefore hold for more runs than the program can make.
- The error value is not modelled. Only whether it is set is kept, as the flag `failed`.
- Kanban.Step: does not model the 64-bit wrap-around of `lastID++`. Ids are unbounded integers, so a board with an id of 2^63-1 is out of scope.
- App.Model.HandleKey: `Update` has a value receiver, and a copied model shares the slices' backing arrays with its original. That aliasing is invisible, because the runtime keeps only the returned model, so the class updates one state in place.

## Findings

| source | as written | input that shows it | evidently intended | confidence | as-written member | corrected member |
|---|---|---|---|---|---|---|
| gotask.go:142-153 | when `json.Unmarshal` returns an error for a field of the wrong type after decoding the rest, `loadBoard` returns the error before the loop that raises `lastID`, while the partly decoded board is kept | a snapshot whose only task is `{"id": 4, "title": "a", "description": 5}`: the board keeps task 4 and the counter stays 0, so the fourth task added afterwards is given id 4 too | task ids stay unique: the counter is raised over whatever board is kept | medium, not executed | App.PartialLoadReusesId | App.Model.constructor |
