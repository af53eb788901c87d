/**
  The running program: the `model` record of gotask.go as an object whose fields each
  key press updates in place, its start-up (`initialModel` with `loadBoard`) and its
  key handler (`Update`), proved to follow the transition `Kanban.Step`.
 */
module App {
  import opened Kanban
  import KanbanProps
  import Load

  /** What reading and decoding the snapshot file gave at start-up. */
  datatype LoadOutcome =
    | Missing                        // no snapshot file yet: not an error
    | ReadFailed                     // the file exists but could not be read
    | DecodeFailed                   // the file is not well-formed JSON: nothing is decoded
    | PartlyDecoded(columns: seq<Column>)  // a bad field was skipped or stopped decoding: what was decoded is kept, with an error
    | Decoded(columns: seq<Column>)

  class Model {
    var columns: seq<Column>
    var cursorColumn: int
    var cursorTask: int
    var inputMode: bool
    var buffer: string
    var lastID: int
    var showHelp: bool
    var failed: bool
    var quitting: bool
    /** Every board successfully written to the snapshot file, oldest first. */
    ghost var writes: seq<seq<Column>>

    function Abs(): State
      reads this
    {
      State(columns, cursorColumn, cursorTask, inputMode, buffer, lastID, showHelp, failed, quitting)
    }

    ghost predicate Valid()
      reads this
    {
      Kanban.Valid(Abs())
    }

    /** The default three-column board, replaced by the decoded snapshot when there is
        one, with the id counter raised to the highest id on it. A board left by a decode
        that failed part-way is kept with the error recorded, and its ids raise the counter
        too (gotask.go skips that step, see `PartialLoadAsWritten`). A snapshot without
        columns is excluded: every key that reads the cursor column would fail on it. */
    constructor (load: LoadOutcome)
      requires load.Decoded? || load.PartlyDecoded? ==> |load.columns| > 0
      ensures Valid() && writes == []
      ensures columns == (if load.Decoded? || load.PartlyDecoded? then load.columns else DefaultColumns)
      ensures cursorColumn == 0 && cursorTask == 0
      ensures !inputMode && buffer == "" && showHelp && !quitting
      ensures failed == (load.ReadFailed? || load.DecodeFailed? || load.PartlyDecoded?)
      ensures lastID >= 0 && IdsAtMost(columns, lastID)
      ensures lastID == 0 ||
        exists i, j :: 0 <= i < |columns| && 0 <= j < |columns[i].tasks| && columns[i].tasks[j].id == lastID
    {
      columns := DefaultColumns;
      cursorColumn, cursorTask := 0, 0;
      inputMode, buffer := false, "";
      lastID := 0;
      showHelp := true;
      failed, quitting := false, false;
      writes := [];
      new;
      match load {
        case Missing =>
        case ReadFailed => failed := true;
        case DecodeFailed => failed := true;
        case PartlyDecoded(cols) =>
          columns := cols;
          failed := true;
          lastID := Load.HighestId(columns, lastID);
        case Decoded(cols) =>
          columns := cols;
          lastID := Load.HighestId(columns, lastID);
      }
    }

    /** `saveBoard`: the whole board is written, or the write fails and nothing is. */
    method SaveBoard(outcome: bool) returns (ok: bool)
      modifies this`writes
      ensures ok == outcome
      ensures writes == old(writes) + (if outcome then [columns] else [])
    {
      ok := outcome;
      if ok {
        writes := writes + [columns];
      }
    }

    /** One key press, as `Update` handles a key message. */
    method HandleKey(k: Key, env: Env)
      requires Valid()
      modifies this
      ensures Valid()
      ensures Abs() == Step(old(Abs()), k, env)
      ensures writes == old(writes) + (if Saves(old(Abs()), k) && env.saveOk then [columns] else [])
    {
      KanbanProps.StepPreservesValid(Abs(), k, env);
      if IsControlKey(k) {
        var returned := ControlKey(k, env);
        if returned {
          return;
        }
      } else {
        PerformAction(ActionOf(k), env.saveOk);
      }
      if inputMode {
        buffer := env.edited;
      }
    }

    /** The switch cases of `Update` for quitting, help and input mode; `returned` tells
        whether the case ends in `return`. */
    method ControlKey(k: Key, env: Env) returns (returned: bool)
      requires Kanban.CursorValid(Abs()) && IsControlKey(k)
      modifies this
      ensures Abs() == ControlSwitch(old(Abs()), k, env)
      ensures returned == ReturnsEarly(old(Abs()), k)
      ensures writes == old(writes) + (if Saves(old(Abs()), k) && env.saveOk then [columns] else [])
    {
      returned := false;
      match k {
        case CtrlC | Q =>
          var ok := SaveBoard(env.saveOk);
          if !ok {
            failed := true;
            return true;
          }
          quitting := true;
          return true;
        case Help =>
          showHelp := !showHelp;
          return true;
        case Enter =>
          EnterPressed(env);
        case A =>
          if !inputMode {
            inputMode := true;
            return true;
          }
        case Esc =>
          if inputMode {
            inputMode := false;
            buffer := "";
          }
      }
    }

    /** The switch cases of `Update` for deleting, navigating and moving, by the group
        of key strings the case names. */
    method PerformAction(a: BoardAction, saveOk: bool)
      requires Kanban.CursorValid(Abs())
      modifies this
      ensures Abs() == Perform(old(Abs()), a, saveOk)
      ensures writes == old(writes) + (if PerformSaves(old(Abs()), a) && saveOk then [columns] else [])
    {
      match a {
        case Delete =>
          if !inputMode && |columns| > 0 {
            DeleteCursorTask(saveOk);
          }
        case Vertical(down) => StepWithinColumn(down);
        case Horizontal(right) => StepToColumn(right);
        case Move(right) => MoveToAdjacent(right, saveOk);
        case Ignore =>
      }
    }

    /** Up (`down` false) and down: the cursor moves one task within its column, clamped
        to the column's tasks. */
    method StepWithinColumn(down: bool)
      requires Kanban.CursorValid(Abs())
      modifies this
      ensures Abs() == VerticalKey(old(Abs()), down)
      ensures writes == old(writes)
    {
      if !inputMode && |columns[cursorColumn].tasks| > 0 {
        if down {
          cursorTask := Min(|columns[cursorColumn].tasks| - 1, cursorTask + 1);
        } else {
          cursorTask := Max(0, cursorTask - 1);
        }
      }
    }

    /** Left (`right` false) and right: the cursor goes to the first slot of the adjacent
        column, if there is one. */
    method StepToColumn(right: bool)
      requires Kanban.CursorValid(Abs())
      modifies this
      ensures Abs() == HorizontalKey(old(Abs()), right)
      ensures writes == old(writes)
    {
      if right {
        if !inputMode && cursorColumn < |columns| - 1 {
          cursorColumn := cursorColumn + 1;
          cursorTask := 0;
        }
      } else {
        if !inputMode && cursorColumn > 0 {
          cursorColumn := cursorColumn - 1;
          cursorTask := 0;
        }
      }
    }

    /** `[` (`right` false) and `]`: the task under the cursor goes to the adjacent column,
        if there is one. */
    method MoveToAdjacent(right: bool, saveOk: bool)
      requires Kanban.CursorValid(Abs())
      modifies this
      ensures Abs() == MoveKey(old(Abs()), right, saveOk)
      ensures writes == old(writes) + (if PerformSaves(old(Abs()), Move(right)) && saveOk then [columns] else [])
    {
      if right {
        if !inputMode && cursorColumn < |columns| - 1 {
          MoveCursorTask(cursorColumn + 1, saveOk);
        }
      } else {
        if !inputMode && cursorColumn > 0 {
          MoveCursorTask(cursorColumn - 1, saveOk);
        }
      }
    }

    /** Enter: in input mode, a non-empty buffer becomes a new task at the end of the
        cursor column, with the next id, and is saved; either way input mode ends. */
    method EnterPressed(env: Env)
      requires Kanban.CursorValid(Abs())
      modifies this
      ensures Abs() == EnterKey(old(Abs()), env)
      ensures writes == old(writes) + (if old(inputMode) && old(buffer) != "" && env.saveOk then [columns] else [])
    {
      if inputMode {
        if buffer != "" {
          lastID := lastID + 1;
          var task := Task(lastID, buffer, "", env.now);
          var col := columns[cursorColumn];
          columns := columns[cursorColumn := col.(tasks := col.tasks + [task])];
          buffer := "";
          inputMode := false;
          var ok := SaveBoard(env.saveOk);
          if !ok {
            failed := true;
          }
        } else {
          inputMode := false;
        }
      }
    }

    /** `d`: the task under the cursor leaves its column and the board is saved; the
        cursor steps back when it would point past the end. */
    method DeleteCursorTask(saveOk: bool)
      requires Kanban.CursorValid(Abs())
      modifies this
      ensures Abs() == DeleteTask(old(Abs()), saveOk)
      ensures writes == old(writes) + (if |old(columns)[old(cursorColumn)].tasks| > 0 && saveOk then [columns] else [])
    {
      var col := columns[cursorColumn];
      if |col.tasks| > 0 {
        columns := columns[cursorColumn := col.(tasks := RemoveAt(col.tasks, cursorTask))];
        if cursorTask >= |columns[cursorColumn].tasks| && cursorTask > 0 {
          cursorTask := cursorTask - 1;
        }
        var ok := SaveBoard(saveOk);
        if !ok {
          failed := true;
        }
      }
    }

    /** The body shared by the two move keys: take the task under the cursor out of its
        column, append it to column `dest`, put the cursor on it and save. */
    method MoveCursorTask(dest: int, saveOk: bool)
      requires Kanban.CursorValid(Abs())
      requires 0 <= dest < |columns| && dest != cursorColumn
      modifies this
      ensures Abs() == MoveTask(old(Abs()), dest, saveOk)
      ensures writes == old(writes) + (if |old(columns)[old(cursorColumn)].tasks| > 0 && saveOk then [columns] else [])
    {
      var src := columns[cursorColumn];
      if |src.tasks| > 0 {
        var task := src.tasks[cursorTask];
        columns := columns[cursorColumn := src.(tasks := RemoveAt(src.tasks, cursorTask))];
        if cursorTask >= |columns[cursorColumn].tasks| && cursorTask > 0 {
          cursorTask := cursorTask - 1;
        }
        var destCol := columns[dest];
        columns := columns[dest := destCol.(tasks := destCol.tasks + [task])];
        cursorColumn := dest;
        cursorTask := |columns[dest].tasks| - 1;
        var ok := SaveBoard(saveOk);
        if !ok {
          failed := true;
        }
      }
    }
  }

  /** A fresh installation: `a`, typing "Write spec" and Enter put the task, with id 1,
      in "To Do". */
  method SessionAddTask(t: Timestamp)
  {
    var ok := Env(true, t, "");
    var typed := Env(true, t, "Write spec");
    var m := new Model(Missing);
    ghost var s0 := State(DefaultColumns, 0, 0, false, "", 0, true, false, false);
    assert m.Abs() == s0;
    m.HandleKey(A, ok);
    KanbanProps.AddKeyEntersInputMode(s0, ok);
    m.HandleKey(Other, typed);
    KanbanProps.InputModeKeysGoToBuffer(s0.(inputMode := true), Other, typed);
    m.HandleKey(Enter, ok);
    WriteSpecAdded(t, ok);
    assert m.columns == OneTaskBoard(t);
    assert !m.inputMode && m.buffer == "" && m.lastID == 1;
  }

  /** Enter with "Write spec" typed on the default board, as a transition. */
  lemma WriteSpecAdded(t: Timestamp, env: Env)
    requires env.now == t
    ensures Step(State(DefaultColumns, 0, 0, true, "Write spec", 0, true, false, false), Enter, env) ==
      State(OneTaskBoard(t), 0, 0, false, "", 1, true, !env.saveOk, false)
  {
    var s := State(DefaultColumns, 0, 0, true, "Write spec", 0, true, false, false);
    assert [] + [Task(1, "Write spec", "", t)] == [Task(1, "Write spec", "", t)];
    assert Step(s, Enter, env) == AddTask(s, env);
  }

  /** The board of one task, "Write spec" with id 1, in "To Do". */
  function OneTaskBoard(t: Timestamp): seq<Column>
  {
    [Column(1, "To Do", [Task(1, "Write spec", "", t)]), Column(2, "In Progress", []), Column(3, "Done", [])]
  }

  /** Loading that board raises the counter to 1. */
  method LoadOneTask(t: Timestamp) returns (m: Model)
    ensures fresh(m) && m.Valid() && m.writes == []
    ensures m.Abs() == State(OneTaskBoard(t), 0, 0, false, "", 1, true, false, false)
  {
    var cols := OneTaskBoard(t);
    m := new Model(Decoded(cols));
    assert cols[0].tasks[0].id == 1;
    if m.lastID != 0 {
      var i, j :| 0 <= i < |cols| && 0 <= j < |cols[i].tasks| && cols[i].tasks[j].id == m.lastID;
      assert i == 0;
    }
  }

  /** From that board, `]` carries the task to "In Progress", puts the cursor on it and
      writes the new board. */
  method SessionMoveRight(t: Timestamp)
  {
    var task := Task(1, "Write spec", "", t);
    var m := LoadOneTask(t);
    m.HandleKey(CloseBracket, Env(true, t, ""));
    OneTaskMovedRight(t, Env(true, t, ""));
    assert m.columns == [Column(1, "To Do", []), Column(2, "In Progress", [task]), Column(3, "Done", [])];
    assert m.cursorColumn == 1 && m.cursorTask == 0;
    assert m.writes == [m.columns];
  }

  /** `]` on that board, as a transition. */
  lemma OneTaskMovedRight(t: Timestamp, env: Env)
    requires env.saveOk
    ensures Step(State(OneTaskBoard(t), 0, 0, false, "", 1, true, false, false), CloseBracket, env) ==
      State([Column(1, "To Do", []), Column(2, "In Progress", [Task(1, "Write spec", "", t)]), Column(3, "Done", [])],
            1, 0, false, "", 1, true, false, false)
  {
    var s := State(OneTaskBoard(t), 0, 0, false, "", 1, true, false, false);
    var task := Task(1, "Write spec", "", t);
    assert RemoveAt([task], 0) == [];
    assert [] + [task] == [task];
    assert Perform(s, Move(true), true) == MoveTask(s, 1, true);
    assert Step(s, CloseBracket, env) == MoveTask(s, 1, true);
  }

  /** From the same board, `d` removes the task, leaving the default board, and writes it. */
  method SessionDelete(t: Timestamp)
  {
    var task := Task(1, "Write spec", "", t);
    var m := LoadOneTask(t);
    ghost var before := m.Abs();
    m.HandleKey(D, Env(true, t, ""));
    assert RemoveAt([task], 0) == [];
    assert m.Abs() == DeleteTask(before, true);
    assert m.columns == DefaultColumns;
    assert m.writes == [DefaultColumns];
  }

  /** A board holding ids 3, 7 and 5. */
  function SampleBoard(t: Timestamp): seq<Column>
  {
    [Column(1, "To Do", [Task(3, "a", "", t), Task(7, "b", "", t)]),
     Column(2, "In Progress", [Task(5, "c", "", t)]),
     Column(3, "Done", [])]
  }

  /** Loading the sample board raises the counter to its highest id, 7. */
  method LoadSample(t: Timestamp) returns (m: Model)
    ensures fresh(m) && m.Valid() && m.writes == []
    ensures m.Abs() == State(SampleBoard(t), 0, 0, false, "", 7, true, false, false)
  {
    var cols := SampleBoard(t);
    m := new Model(Decoded(cols));
    assert cols[0].tasks[1].id == 7;
    if m.lastID != 0 {
      var i, j :| 0 <= i < |cols| && 0 <= j < |cols[i].tasks| && cols[i].tasks[j].id == m.lastID;
      assert i == 0 || i == 1;
    }
  }

  /** After that load, the next task typed in gets id 8. */
  method SessionAfterLoad(t: Timestamp)
  {
    var m := LoadSample(t);
    m.HandleKey(A, Env(true, t, ""));
    m.HandleKey(Other, Env(true, t, "next"));
    assert m.Abs() == State(SampleBoard(t), 0, 0, true, "next", 7, true, false, false);
    ghost var before := m.Abs();
    m.HandleKey(Enter, Env(true, t, ""));
    assert m.Abs() == AddTask(before, Env(true, t, ""));
    assert m.columns[0].tasks[2].id == 8;
  }

  // ---------------------------------------------------------------------------
  // Start-up after a partial decode, as gotask.go:142-144 is written

  /** The state `initialModel` starts from when the snapshot decodes only in part: the
      partly decoded board and the error, but the id counter still 0, because `loadBoard`
      returns before the loop that raises it. */
  function PartialLoadAsWritten(columns: seq<Column>): (r: State)
    ensures r.columns == columns && r.failed && r.lastID == 0
    ensures r.cursorColumn == 0 && r.cursorTask == 0 && !r.inputMode && r.buffer == ""
  {
    State(columns, 0, 0, false, "", 0, true, true, false)
  }

  /** With the counter left at 0, a board holding id 4 gives the invariant up at once,
      and the fourth task added afterwards is handed id 4 again. */
  lemma PartialLoadReusesId(t: Timestamp, env: Env)
    requires env.saveOk
    ensures var s := PartialLoadAsWritten(
      [Column(1, "To Do", [Task(4, "a", "", t)]), Column(2, "In Progress", []), Column(3, "Done", [])]);
      var r := Run(s, KanbanProps.AddEvents("x", env) + KanbanProps.AddEvents("x", env) + KanbanProps.AddEvents("x", env) + KanbanProps.AddEvents("x", env));
      && !Kanban.Valid(s)
      && |r.columns[0].tasks| == 5
      && r.columns[0].tasks[0].id == 4 && r.columns[0].tasks[4].id == 4
  {
    var s := PartialLoadAsWritten(
      [Column(1, "To Do", [Task(4, "a", "", t)]), Column(2, "In Progress", []), Column(3, "Done", [])]);
    var e := KanbanProps.AddEvents("x", env);
    assert s.columns[0].tasks[0].id == 4;
    KanbanProps.TypedAdd(s, "x", env);
    var s1 := Run(s, e);
    KanbanProps.TypedAdd(s1, "x", env);
    var s2 := Run(s1, e);
    KanbanProps.TypedAdd(s2, "x", env);
    var s3 := Run(s2, e);
    KanbanProps.TypedAdd(s3, "x", env);
    KanbanProps.RunAppend(s, e, e);
    KanbanProps.RunAppend(s, e + e, e);
    KanbanProps.RunAppend(s, e + e + e, e);
    assert s3.lastID == 3;
    assert Run(s, e + e + e + e).columns[0].tasks == s.columns[0].tasks + [Task(1, "x", "", env.now)]
      + [Task(2, "x", "", env.now)] + [Task(3, "x", "", env.now)] + [Task(4, "x", "", env.now)];
  }
}
