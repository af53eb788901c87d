/**
  What one key press, and a run of them, does to the board, the cursor and the id
  counter: the guarantees behind `model.Update` in gotask.go.
 */
module KanbanProps {
  import opened Kanban

  // ---------------------------------------------------------------------------
  // The board as a multiset of tasks

  lemma {:induction false} AllTasksUpdate(cols: seq<Column>, i: int, c: Column)
    requires 0 <= i < |cols|
    ensures AllTasks(cols[i := c]) + multiset(cols[i].tasks) == AllTasks(cols) + multiset(c.tasks)
  {
    var u := cols[i := c];
    if i == 0 {
      assert u[1..] == cols[1..];
    } else {
      var tail := cols[1..];
      assert u[0] == cols[0] && tail[i - 1] == cols[i];
      assert u[1..] == tail[i - 1 := c];
      AllTasksUpdate(tail, i - 1, c);
      calc {
        AllTasks(u) + multiset(cols[i].tasks);
        multiset(cols[0].tasks) + AllTasks(tail[i - 1 := c]) + multiset(tail[i - 1].tasks);
        multiset(cols[0].tasks) + (AllTasks(tail[i - 1 := c]) + multiset(tail[i - 1].tasks));
        multiset(cols[0].tasks) + (AllTasks(tail) + multiset(c.tasks));
        AllTasks(cols) + multiset(c.tasks);
      }
    }
  }

  /** A task is on the board exactly when some column holds it at some position. */
  lemma {:induction false} AllTasksMembers(cols: seq<Column>, t: Task)
    ensures t in AllTasks(cols) <==>
      exists i, j :: 0 <= i < |cols| && 0 <= j < |cols[i].tasks| && cols[i].tasks[j] == t
  {
    if cols != [] {
      AllTasksMembers(cols[1..], t);
      if t in multiset(cols[0].tasks) {
        var j :| 0 <= j < |cols[0].tasks| && cols[0].tasks[j] == t;
        assert cols[0].tasks[j] == t;
      }
      if exists i, j :: 0 <= i < |cols| && 0 <= j < |cols[i].tasks| && cols[i].tasks[j] == t {
        var i, j :| 0 <= i < |cols| && 0 <= j < |cols[i].tasks| && cols[i].tasks[j] == t;
        if i == 0 {
          assert t in cols[0].tasks;
        } else {
          assert cols[1..][i - 1].tasks[j] == t;
        }
      }
    }
  }

  lemma MultisetCancel<T>(a: multiset<T>, b: multiset<T>, x: multiset<T>)
    requires a + x == b + x
    ensures a == b
  {
    forall t ensures a[t] == b[t] {
      assert (a + x)[t] == (b + x)[t];
    }
  }

  /** With no id above `n`, every task on the board has an id at most `n`. */
  lemma IdsAtMostAllTasks(cols: seq<Column>, n: int, t: Task)
    requires IdsAtMost(cols, n)
    requires t in AllTasks(cols)
    ensures t.id <= n
  {
    AllTasksMembers(cols, t);
  }

  // ---------------------------------------------------------------------------
  // The invariant

  /** Every key press keeps the cursor in range, the id counter at or above every id on
      the board, and the buffer empty outside input mode. */
  lemma StepPreservesValid(s: State, k: Key, env: Env)
    requires Valid(s)
    ensures Valid(Step(s, k, env))
  {
    if IsControlKey(k) {
      ControlKeepsValid(s, k, env);
      ForwardKeepsValid(ControlSwitch(s, k, env), env);
    } else {
      BoardKeepsValid(s, k, env);
      ForwardKeepsValid(BoardSwitch(s, k, env), env);
    }
  }

  lemma ControlKeepsValid(s: State, k: Key, env: Env)
    requires Valid(s) && IsControlKey(k)
    ensures Valid(ControlSwitch(s, k, env))
  {
    if k == Enter && s.inputMode && s.buffer != "" {
      AddKeepsIds(s, env);
    }
  }

  lemma BoardKeepsValid(s: State, k: Key, env: Env)
    requires Valid(s) && !IsControlKey(k)
    ensures Valid(BoardSwitch(s, k, env))
  {
    PerformKeepsValid(s, ActionOf(k), env.saveOk);
  }

  lemma PerformKeepsValid(s: State, a: BoardAction, saveOk: bool)
    requires Valid(s)
    ensures Valid(Perform(s, a, saveOk))
  {
    match a
    case Delete =>
      if !s.inputMode && |s.columns| > 0 { DeleteKeepsIds(s, saveOk); }
    case Move(right) =>
      if !s.inputMode && right && s.cursorColumn < |s.columns| - 1 {
        MoveKeepsIds(s, s.cursorColumn + 1, saveOk);
      } else if !s.inputMode && !right && s.cursorColumn > 0 {
        MoveKeepsIds(s, s.cursorColumn - 1, saveOk);
      }
    case Vertical(down) =>
      CursorMoveKeepsValid(s, VerticalKey(s, down));
    case Horizontal(right) =>
      CursorMoveKeepsValid(s, HorizontalKey(s, right));
    case Ignore =>
  }

  lemma CursorMoveKeepsValid(s: State, r: State)
    requires Valid(s) && CursorValid(r)
    requires r == s.(cursorColumn := r.cursorColumn, cursorTask := r.cursorTask)
    ensures Valid(r)
  {
  }

  lemma ForwardKeepsValid(s: State, env: Env)
    requires Valid(s)
    ensures Valid(Forward(s, env))
  {
  }

  lemma AddKeepsIds(s: State, env: Env)
    requires Valid(s)
    ensures Valid(AddTask(s, env))
  {
    var r := AddTask(s, env);
    var cc := s.cursorColumn;
    forall i, j | 0 <= i < |r.columns| && 0 <= j < |r.columns[i].tasks|
      ensures r.columns[i].tasks[j].id <= r.lastID
    {
      if i == cc && j == |s.columns[cc].tasks| {
      } else {
        assert r.columns[i].tasks[j] == s.columns[i].tasks[j];
      }
    }
  }

  lemma DeleteKeepsIds(s: State, saveOk: bool)
    requires Valid(s)
    ensures Valid(DeleteTask(s, saveOk))
  {
    var r := DeleteTask(s, saveOk);
    var cc, ct := s.cursorColumn, s.cursorTask;
    if |CursorTasks(s)| > 0 {
      forall i, j | 0 <= i < |r.columns| && 0 <= j < |r.columns[i].tasks|
        ensures r.columns[i].tasks[j].id <= r.lastID
      {
        if i == cc && j >= ct {
          assert r.columns[i].tasks[j] == s.columns[i].tasks[j + 1];
        } else {
          assert r.columns[i].tasks[j] == s.columns[i].tasks[j];
        }
      }
    }
  }

  lemma MoveKeepsIds(s: State, dest: int, saveOk: bool)
    requires Valid(s)
    requires 0 <= dest < |s.columns| && dest != s.cursorColumn
    ensures Valid(MoveTask(s, dest, saveOk))
  {
    var r := MoveTask(s, dest, saveOk);
    var cc, ct := s.cursorColumn, s.cursorTask;
    if |CursorTasks(s)| > 0 {
      forall i, j | 0 <= i < |r.columns| && 0 <= j < |r.columns[i].tasks|
        ensures r.columns[i].tasks[j].id <= s.lastID
      {
        if i == cc && j >= ct {
          assert r.columns[i].tasks[j] == s.columns[i].tasks[j + 1];
        } else if i == dest && j == |s.columns[dest].tasks| {
          assert r.columns[i].tasks[j] == s.columns[cc].tasks[ct];
        } else {
          assert r.columns[i].tasks[j] == s.columns[i].tasks[j];
        }
      }
    }
  }

  // ---------------------------------------------------------------------------
  // Adding

  /** Enter in input mode with text appends one task, with the next id and the buffer as
      its title, to the end of the cursor column; nothing else on the board changes. */
  lemma EnterAddsOneTask(s: State, env: Env)
    requires Valid(s) && s.inputMode && s.buffer != ""
    ensures var r := Step(s, Enter, env);
      var task := Task(s.lastID + 1, s.buffer, "", env.now);
      && |r.columns| == |s.columns|
      && r.columns[s.cursorColumn].tasks == CursorTasks(s) + [task]
      && r.columns[s.cursorColumn].id == s.columns[s.cursorColumn].id
      && r.columns[s.cursorColumn].title == s.columns[s.cursorColumn].title
      && (forall i :: 0 <= i < |s.columns| && i != s.cursorColumn ==> r.columns[i] == s.columns[i])
      && AllTasks(r.columns) == AllTasks(s.columns) + multiset{task}
      && (forall t :: t in AllTasks(s.columns) ==> t.id < task.id)
      && r.lastID == s.lastID + 1
      && r.buffer == "" && !r.inputMode
      && r.cursorColumn == s.cursorColumn && r.cursorTask == s.cursorTask
      && r.failed == (s.failed || !env.saveOk)
      && r.showHelp == s.showHelp && r.quitting == s.quitting
  {
    assert Step(s, Enter, env) == AddTask(s, env);
    var task := Task(s.lastID + 1, s.buffer, "", env.now);
    var col := s.columns[s.cursorColumn];
    var u := s.columns[s.cursorColumn := col.(tasks := col.tasks + [task])];
    AllTasksUpdate(s.columns, s.cursorColumn, col.(tasks := col.tasks + [task]));
    assert multiset(col.tasks + [task]) == multiset(col.tasks) + multiset{task};
    assert AllTasks(u) + multiset(col.tasks) == AllTasks(s.columns) + multiset{task} + multiset(col.tasks);
    MultisetCancel(AllTasks(u), AllTasks(s.columns) + multiset{task}, multiset(col.tasks));
    forall t | t in AllTasks(s.columns) ensures t.id < task.id {
      IdsAtMostAllTasks(s.columns, s.lastID, t);
    }
  }

  /** Enter in input mode with an empty buffer only leaves input mode. */
  lemma EnterWithEmptyBuffer(s: State, env: Env)
    requires CursorValid(s) && s.inputMode && s.buffer == ""
    ensures Step(s, Enter, env) == s.(inputMode := false)
  {
  }

  /** Enter outside input mode does nothing. */
  lemma EnterOutsideInputMode(s: State, env: Env)
    requires CursorValid(s) && !s.inputMode
    ensures Step(s, Enter, env) == s
  {
  }

  // ---------------------------------------------------------------------------
  // Deleting

  /** `d` on a non-empty column removes exactly the task under the cursor, keeps the
      order of the rest, the column's id and title and every other column, and pulls the
      cursor back only when it would point past the end; besides the board, the cursor
      task index and the error flag, nothing changes. */
  lemma DeleteRemovesOne(s: State, env: Env)
    requires CursorValid(s) && !s.inputMode && CursorTasks(s) != []
    ensures var r := Step(s, D, env);
      var tasks := CursorTasks(s);
      var cc, ct := s.cursorColumn, s.cursorTask;
      && r == s.(columns := r.columns, cursorTask := r.cursorTask, failed := r.failed)
      && |r.columns| == |s.columns|
      && r.columns[cc] == s.columns[cc].(tasks := RemoveAt(tasks, ct))
      && |r.columns[cc].tasks| == |tasks| - 1
      && (forall j :: 0 <= j < ct ==> r.columns[cc].tasks[j] == tasks[j])
      && (forall j :: ct <= j < |tasks| - 1 ==> r.columns[cc].tasks[j] == tasks[j + 1])
      && (forall i :: 0 <= i < |s.columns| && i != cc ==> r.columns[i] == s.columns[i])
      && AllTasks(r.columns) + multiset{tasks[ct]} == AllTasks(s.columns)
      && r.cursorTask == (if ct >= |tasks| - 1 && ct > 0 then ct - 1 else ct)
      && r.failed == (s.failed || !env.saveOk)
  {
    assert Perform(s, Delete, env.saveOk) == DeleteTask(s, env.saveOk);
    assert Step(s, D, env) == DeleteTask(s, env.saveOk);
    DeleteTaskConserves(s, env.saveOk);
  }

  lemma DeleteTaskConserves(s: State, saveOk: bool)
    requires CursorValid(s) && CursorTasks(s) != []
    ensures AllTasks(DeleteTask(s, saveOk).columns) + multiset{CursorTasks(s)[s.cursorTask]} == AllTasks(s.columns)
  {
    var col := s.columns[s.cursorColumn];
    var rest := RemoveAt(col.tasks, s.cursorTask);
    var u := s.columns[s.cursorColumn := col.(tasks := rest)];
    AllTasksUpdate(s.columns, s.cursorColumn, col.(tasks := rest));
    assert AllTasks(u) + multiset{col.tasks[s.cursorTask]} + multiset(rest) == AllTasks(s.columns) + multiset(rest);
    MultisetCancel(AllTasks(u) + multiset{col.tasks[s.cursorTask]}, AllTasks(s.columns), multiset(rest));
  }

  /** `d` on an empty column changes nothing. */
  lemma DeleteOnEmptyColumn(s: State, env: Env)
    requires CursorValid(s) && !s.inputMode && CursorTasks(s) == []
    ensures Step(s, D, env) == s
  {
  }

  // ---------------------------------------------------------------------------
  // Moving

  /** The column a move key sends the task under the cursor to. */
  function MoveTarget(s: State, k: Key): int
    requires ActionOf(k).Move?
  {
    if ActionOf(k).right then s.cursorColumn + 1 else s.cursorColumn - 1
  }

  /** A move key carries the task under the cursor, unchanged, to the end of the adjacent
      column; both columns keep their id and title, every other column is unchanged, the
      cursor follows the task and the board keeps the same tasks; besides the board, the
      cursor and the error flag, nothing changes. */
  lemma MoveConservesTasks(s: State, k: Key, env: Env)
    requires CursorValid(s) && !s.inputMode && CursorTasks(s) != []
    requires ActionOf(k).Move? && 0 <= MoveTarget(s, k) < |s.columns|
    ensures var r := Step(s, k, env);
      var dest := MoveTarget(s, k);
      var tasks := CursorTasks(s);
      var cc, ct := s.cursorColumn, s.cursorTask;
      && r == s.(columns := r.columns, cursorColumn := r.cursorColumn, cursorTask := r.cursorTask, failed := r.failed)
      && |r.columns| == |s.columns|
      && r.columns[cc] == s.columns[cc].(tasks := RemoveAt(tasks, ct))
      && r.columns[dest] == s.columns[dest].(tasks := s.columns[dest].tasks + [tasks[ct]])
      && (forall i :: 0 <= i < |s.columns| && i != cc && i != dest ==> r.columns[i] == s.columns[i])
      && AllTasks(r.columns) == AllTasks(s.columns)
      && r.cursorColumn == dest && r.cursorTask == |r.columns[dest].tasks| - 1
      && r.failed == (s.failed || !env.saveOk)
  {
    var dest := MoveTarget(s, k);
    assert Perform(s, ActionOf(k), env.saveOk) == MoveTask(s, dest, env.saveOk);
    assert Step(s, k, env) == MoveTask(s, dest, env.saveOk);
    MoveTaskConserves(s, dest, env.saveOk);
  }

  lemma MoveTaskConserves(s: State, dest: int, saveOk: bool)
    requires CursorValid(s) && CursorTasks(s) != []
    requires 0 <= dest < |s.columns| && dest != s.cursorColumn
    ensures AllTasks(MoveTask(s, dest, saveOk).columns) == AllTasks(s.columns)
  {
    var cc, ct := s.cursorColumn, s.cursorTask;
    var src := s.columns[cc];
    var task := src.tasks[ct];
    var rest := RemoveAt(src.tasks, ct);
    var cols := s.columns[cc := src.(tasks := rest)];
    var moved := cols[dest].tasks + [task];
    AllTasksUpdate(s.columns, cc, src.(tasks := rest));
    assert AllTasks(cols) + multiset{task} + multiset(rest) == AllTasks(s.columns) + multiset(rest);
    MultisetCancel(AllTasks(cols) + multiset{task}, AllTasks(s.columns), multiset(rest));
    AllTasksUpdate(cols, dest, cols[dest].(tasks := moved));
    assert multiset(moved) == multiset(cols[dest].tasks) + multiset{task};
    MultisetCancel(AllTasks(cols[dest := cols[dest].(tasks := moved)]), AllTasks(cols) + multiset{task},
                   multiset(cols[dest].tasks));
  }

  /** A move key at the edge column, on an empty column or in input mode leaves the board
      and the cursor where they are. */
  lemma MoveNoOp(s: State, k: Key, env: Env)
    requires CursorValid(s) && ActionOf(k).Move?
    requires s.inputMode || CursorTasks(s) == [] || !(0 <= MoveTarget(s, k) < |s.columns|)
    ensures var r := Step(s, k, env);
      r.columns == s.columns && r.cursorColumn == s.cursorColumn && r.cursorTask == s.cursorTask
      && r.failed == s.failed
      && (!s.inputMode ==> r == s)
  {
    assert Perform(s, ActionOf(k), env.saveOk) == s;
  }

  // ---------------------------------------------------------------------------
  // Navigating

  /** Up moves one task towards the top of the column and stops at the top. */
  lemma UpClamps(s: State, k: Key, env: Env)
    requires CursorValid(s) && !s.inputMode && k in {Up, K}
    ensures var r := Step(s, k, env);
      && r.columns == s.columns && r.cursorColumn == s.cursorColumn
      && r == s.(cursorTask := r.cursorTask)
      && (CursorTasks(s) == [] ==> r == s)
      && (CursorTasks(s) != [] ==>
            0 <= r.cursorTask <= s.cursorTask <= r.cursorTask + 1
            && (r.cursorTask == s.cursorTask <==> s.cursorTask == 0))
  {
    assert Step(s, k, env) == VerticalKey(s, false);
  }

  /** Down moves one task towards the bottom of the column and stops at the last task. */
  lemma DownClamps(s: State, k: Key, env: Env)
    requires CursorValid(s) && !s.inputMode && k in {Down, J}
    ensures var r := Step(s, k, env);
      && r.columns == s.columns && r.cursorColumn == s.cursorColumn
      && r == s.(cursorTask := r.cursorTask)
      && (CursorTasks(s) == [] ==> r == s)
      && (CursorTasks(s) != [] ==>
            s.cursorTask <= r.cursorTask <= s.cursorTask + 1
            && r.cursorTask < |CursorTasks(s)|
            && (r.cursorTask == s.cursorTask <==> s.cursorTask == |CursorTasks(s)| - 1))
  {
    assert Step(s, k, env) == VerticalKey(s, true);
  }

  /** Left and right change the column by one, without wrapping around, and put the
      cursor on the first slot of the new column. */
  lemma SidewaysClamps(s: State, k: Key, env: Env)
    requires CursorValid(s) && !s.inputMode && k in {Left, H, Right, L}
    ensures var r := Step(s, k, env);
      var dest := if k in {Right, L} then s.cursorColumn + 1 else s.cursorColumn - 1;
      && r.columns == s.columns
      && 0 <= r.cursorColumn < |s.columns|
      && (0 <= dest < |s.columns| ==> r == s.(cursorColumn := dest, cursorTask := 0))
      && (!(0 <= dest < |s.columns|) ==> r == s)
  {
    assert Step(s, k, env) == HorizontalKey(s, ActionOf(k).right);
  }

  // ---------------------------------------------------------------------------
  // Modes

  /** `a` outside input mode enters input mode and changes nothing else. */
  lemma AddKeyEntersInputMode(s: State, env: Env)
    requires CursorValid(s) && !s.inputMode
    ensures Step(s, A, env) == s.(inputMode := true)
  {
  }

  /** In input mode, `a`, `d`, the navigation and move keys and every unnamed key leave
      the board, the cursor and the mode alone and go to the text input. */
  lemma InputModeKeysGoToBuffer(s: State, k: Key, env: Env)
    requires CursorValid(s) && s.inputMode
    requires k !in {CtrlC, Q, Help, Enter, Esc}
    ensures Step(s, k, env) == s.(buffer := env.edited)
  {
  }

  /** Escape in input mode discards the buffer and leaves input mode; outside it, nothing. */
  lemma EscCancels(s: State, env: Env)
    requires CursorValid(s)
    ensures var r := Step(s, Esc, env);
      (s.inputMode ==> r == s.(inputMode := false, buffer := "")) && (!s.inputMode ==> r == s)
  {
  }

  /** `?` flips the help flag in either mode and changes nothing else. */
  lemma HelpToggles(s: State, env: Env)
    requires CursorValid(s)
    ensures var r := Step(s, Help, env);
      r.showHelp == !s.showHelp && r.(showHelp := s.showHelp) == s
  {
  }

  /** `q` and ctrl+c save in either mode and quit only when the save succeeds; a failed
      save is recorded and the program stays as it was. */
  lemma QuitSavesFirst(s: State, k: Key, env: Env)
    requires CursorValid(s) && k in {CtrlC, Q}
    ensures var r := Step(s, k, env);
      && r.columns == s.columns && r.inputMode == s.inputMode && r.buffer == s.buffer
      && r.cursorColumn == s.cursorColumn && r.cursorTask == s.cursorTask
      && (r.quitting <==> s.quitting || env.saveOk)
      && (r.failed <==> s.failed || !env.saveOk)
  {
  }

  // ---------------------------------------------------------------------------
  // Saving

  /** Every key press that changes the board saves it; a save failure, and only that,
      sets the error; the program quits only after a successful save. */
  lemma MutationsAreSaved(s: State, k: Key, env: Env)
    requires CursorValid(s)
    ensures var r := Step(s, k, env);
      && (r.columns != s.columns ==> Saves(s, k))
      && (Saves(s, k) ==> (r.failed <==> s.failed || !env.saveOk))
      && (!Saves(s, k) ==> r.failed == s.failed)
      && (r.quitting && !s.quitting ==> Saves(s, k) && env.saveOk)
  {
    var t := if IsControlKey(k) then ControlSwitch(s, k, env) else BoardSwitch(s, k, env);
    if !IsControlKey(k) {
      BoardSwitchSaves(s, k, env);
    }
    assert Step(s, k, env) == if ReturnsEarly(s, k) then t else Forward(t, env);
  }

  lemma BoardSwitchSaves(s: State, k: Key, env: Env)
    requires CursorValid(s) && !IsControlKey(k)
    ensures var r := BoardSwitch(s, k, env);
      && (r.columns != s.columns ==> Saves(s, k))
      && (Saves(s, k) ==> (r.failed <==> s.failed || !env.saveOk))
      && (!Saves(s, k) ==> r.failed == s.failed)
      && r.quitting == s.quitting
  {
    PerformSavesChanges(s, ActionOf(k), env.saveOk);
  }

  lemma PerformSavesChanges(s: State, a: BoardAction, saveOk: bool)
    requires CursorValid(s)
    ensures var r := Perform(s, a, saveOk);
      && (r.columns != s.columns ==> PerformSaves(s, a))
      && (PerformSaves(s, a) ==> (r.failed <==> s.failed || !saveOk))
      && (!PerformSaves(s, a) ==> r.failed == s.failed)
      && r.quitting == s.quitting
  {
    var r := Perform(s, a, saveOk);
    if PerformSaves(s, a) {
      assert |r.columns[s.cursorColumn].tasks| < |CursorTasks(s)|;
    }
  }

  // ---------------------------------------------------------------------------
  // Ids along a run

  /** The id counter advances by one exactly when a task is created. */
  lemma StepLastID(s: State, k: Key, env: Env)
    requires CursorValid(s)
    ensures Step(s, k, env).lastID == s.lastID + (if Adds(s, k) then 1 else 0)
  {
    if IsControlKey(k) {
      assert ControlSwitch(s, k, env).lastID == s.lastID + (if Adds(s, k) then 1 else 0);
    } else {
      BoardKeepsLastID(s, k, env);
    }
  }

  lemma BoardKeepsLastID(s: State, k: Key, env: Env)
    requires CursorValid(s) && !IsControlKey(k)
    ensures BoardSwitch(s, k, env).lastID == s.lastID
  {
    match ActionOf(k)
    case Move(right) =>
    case _ =>
  }

  predicate StrictlyIncreasing(xs: seq<int>)
  {
    forall i, j :: 0 <= i < j < |xs| ==> xs[i] < xs[j]
  }

  /** Along any run the created ids strictly increase and each is above every id on the
      starting board, so an id that is deleted is never handed out again. */
  lemma NewIdsFreshAndIncreasing(s: State, events: seq<Event>)
    requires Valid(s)
    ensures StrictlyIncreasing(NewIds(s, events))
    ensures forall id :: id in NewIds(s, events) ==> s.lastID < id <= Run(s, events).lastID
    ensures forall id, c, j ::
      id in NewIds(s, events) && 0 <= c < |s.columns| && 0 <= j < |s.columns[c].tasks| ==> s.columns[c].tasks[j].id < id
    ensures s.lastID <= Run(s, events).lastID
  {
    NewIdsBounded(s, events);
    NewIdsIncreasing(s, events);
  }

  /** Every created id lies above the starting counter and at or below the final one. */
  lemma {:induction false} NewIdsBounded(s: State, events: seq<Event>)
    requires CursorValid(s)
    decreases |events|
    ensures forall id :: id in NewIds(s, events) ==> s.lastID < id <= Run(s, events).lastID
    ensures s.lastID <= Run(s, events).lastID
  {
    if events != [] {
      var e := events[0];
      var next := Step(s, e.key, e.env);
      StepLastID(s, e.key, e.env);
      NewIdsBounded(next, events[1..]);
      assert Run(s, events) == Run(next, events[1..]);
      assert NewIds(s, events) == (if Adds(s, e.key) then [next.lastID] else []) + NewIds(next, events[1..]);
    }
  }

  lemma {:induction false} NewIdsIncreasing(s: State, events: seq<Event>)
    requires CursorValid(s)
    decreases |events|
    ensures StrictlyIncreasing(NewIds(s, events))
  {
    if events != [] {
      var e := events[0];
      var next := Step(s, e.key, e.env);
      var ids, rest := NewIds(s, events), NewIds(next, events[1..]);
      NewIdsIncreasing(next, events[1..]);
      assert ids == (if Adds(s, e.key) then [next.lastID] else []) + rest;
      if Adds(s, e.key) {
        NewIdsBounded(next, events[1..]);
        forall i, j | 0 <= i < j < |ids| ensures ids[i] < ids[j] {
          assert ids[j] == rest[j - 1] && rest[j - 1] in rest;
          if i > 0 {
            assert ids[i] == rest[i - 1];
          }
        }
      }
    }
  }

  // ---------------------------------------------------------------------------
  // Runs of key presses

  /** The key presses that add a task titled `title`: `a`, the text input taking the
      title, enter. */
  function AddEvents(title: string, env: Env): seq<Event>
  {
    [Event(A, env), Event(Other, env.(edited := title)), Event(Enter, env)]
  }

  lemma {:induction false} RunAppend(s: State, a: seq<Event>, b: seq<Event>)
    requires CursorValid(s)
    decreases |a|
    ensures Run(s, a + b) == Run(Run(s, a), b)
  {
    if a == [] {
      assert a + b == b;
    } else {
      var next := Step(s, a[0].key, a[0].env);
      assert (a + b)[0] == a[0] && (a + b)[1..] == a[1..] + b;
      assert Run(s, a + b) == Run(next, a[1..] + b);
      assert Run(s, a) == Run(next, a[1..]);
      RunAppend(next, a[1..], b);
    }
  }

  /** Typing a non-empty title in normal mode adds it as a task, as enter does in input
      mode. */
  lemma TypedAdd(s: State, title: string, env: Env)
    requires CursorValid(s) && !s.inputMode && title != ""
    ensures Run(s, AddEvents(title, env)) == AddTask(s.(inputMode := true, buffer := title), env)
  {
    var es := AddEvents(title, env);
    var s1 := s.(inputMode := true);
    var s2 := s.(inputMode := true, buffer := title);
    AddKeyEntersInputMode(s, env);
    InputModeKeysGoToBuffer(s1, Other, env.(edited := title));
    assert ControlSwitch(s2, Enter, env) == AddTask(s2, env);
    assert Step(s2, Enter, env) == AddTask(s2, env);
    assert es[1..][1..] == [Event(Enter, env)];
    assert Run(s, es) == Run(s1, es[1..]);
    assert Run(s1, es[1..]) == Run(s2, es[1..][1..]);
    assert Run(s2, es[1..][1..]) == Run(AddTask(s2, env), []);
  }
}
