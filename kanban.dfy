/**
  The board and the key-dispatch state machine of the kanban program, as values.

  `Step` is the transition that one key press applies to the whole program state
  (`model.Update` in gotask.go). The imperative class in module App is proved to
  follow it; the properties of the transition are proved in module KanbanProps.
 */
module Kanban {

  datatype Option<T> = None | Some(value: T)

  /** Creation time of a task. It is stamped once from the clock and afterwards only copied. */
  datatype Timestamp = Timestamp(unixNanos: int)

  datatype Task = Task(id: int, title: string, description: string, createdAt: Timestamp)

  datatype Column = Column(id: int, title: string, tasks: seq<Task>)

  /** The board a fresh installation starts with: three empty columns. */
  const DefaultColumns: seq<Column> :=
    [Column(1, "To Do", []), Column(2, "In Progress", []), Column(3, "Done", [])]

  function Max(a: int, b: int): (r: int)
    ensures r >= a && r >= b
    ensures r == a || r == b
  {
    if a > b then a else b
  }

  function Min(a: int, b: int): (r: int)
    ensures r <= a && r <= b
    ensures r == a || r == b
  {
    if a < b then a else b
  }

  /** The slice idiom `append(s[:i], s[i+1:]...)`: `s` without its element at `i`. */
  function RemoveAt<T>(s: seq<T>, i: int): (r: seq<T>)
    requires 0 <= i < |s|
    ensures |r| == |s| - 1
    ensures forall j :: 0 <= j < i ==> r[j] == s[j]
    ensures forall j :: i <= j < |r| ==> r[j] == s[j + 1]
    ensures multiset(r) + multiset{s[i]} == multiset(s)
  {
    assert s == s[..i] + [s[i]] + s[i + 1..];
    s[..i] + s[i + 1..]
  }

  /** Every task on the board, counted with multiplicity. */
  function AllTasks(cols: seq<Column>): multiset<Task>
  {
    if cols == [] then multiset{} else multiset(cols[0].tasks) + AllTasks(cols[1..])
  }

  /** No task on the board has an id above `n`. */
  predicate IdsAtMost(cols: seq<Column>, n: int)
  {
    forall i, j :: 0 <= i < |cols| && 0 <= j < |cols[i].tasks| ==> cols[i].tasks[j].id <= n
  }

  /** The whole state `Update` reads and writes. `failed` stands for `err != nil`,
      `quitting` for `Update` having returned the quit command. */
  datatype State = State(
    columns: seq<Column>,
    cursorColumn: int,
    cursorTask: int,
    inputMode: bool,
    buffer: string,
    lastID: int,
    showHelp: bool,
    failed: bool,
    quitting: bool)

  /** The key strings `Update` dispatches on; `Other` is every key none of its cases names. */
  datatype Key =
    | CtrlC | Q | Help | Enter | A | D | Esc
    | Up | K | Down | J | Left | H | Right | L
    | OpenBracket | OpenBrace | CloseBracket | CloseBrace
    | Other

  /** What the outside world contributes to one key press: whether the save it may
      trigger succeeds, the clock reading a new task is stamped with, and the buffer
      the text-input component produces when the key is forwarded to it. */
  datatype Env = Env(saveOk: bool, now: Timestamp, edited: string)

  /** A datatype for one key press of a run. */
  datatype Event = Event(key: Key, env: Env)

  /** The cursor names a column, and either a task of it or slot 0 of an empty column. */
  predicate CursorValid(s: State)
  {
    0 <= s.cursorColumn < |s.columns| &&
    0 <= s.cursorTask &&
    (s.cursorTask < |s.columns[s.cursorColumn].tasks| ||
     (s.columns[s.cursorColumn].tasks == [] && s.cursorTask == 0))
  }

  /** The invariant every reachable state keeps. */
  predicate Valid(s: State)
  {
    CursorValid(s) &&
    0 <= s.lastID &&
    IdsAtMost(s.columns, s.lastID) &&
    (!s.inputMode ==> s.buffer == "")
  }

  function CursorTasks(s: State): seq<Task>
    requires 0 <= s.cursorColumn < |s.columns|
  {
    s.columns[s.cursorColumn].tasks
  }

  /** What happens after the key switch: in input mode the key also goes to the text input. */
  function Forward(s: State, env: Env): (r: State)
    ensures r.columns == s.columns && r.cursorColumn == s.cursorColumn && r.cursorTask == s.cursorTask
    ensures r.inputMode == s.inputMode && r.lastID == s.lastID
  {
    if s.inputMode then s.(buffer := env.edited) else s
  }

  /** Enter in input mode with a non-empty buffer: a new task at the end of the cursor column. */
  function AddTask(s: State, env: Env): (r: State)
    requires CursorValid(s)
    ensures CursorValid(r)
  {
    var task := Task(s.lastID + 1, s.buffer, "", env.now);
    var col := s.columns[s.cursorColumn];
    s.(lastID := s.lastID + 1,
       columns := s.columns[s.cursorColumn := col.(tasks := col.tasks + [task])],
       buffer := "",
       inputMode := false,
       failed := s.failed || !env.saveOk)
  }

  /** `d` outside input mode: remove the task under the cursor, pulling the cursor back
      when it would point past the end. */
  function DeleteTask(s: State, saveOk: bool): (r: State)
    requires CursorValid(s)
    ensures CursorValid(r)
    ensures r == s.(columns := r.columns, cursorTask := r.cursorTask, failed := r.failed)
  {
    var col := s.columns[s.cursorColumn];
    if |col.tasks| > 0 then
      var rest := RemoveAt(col.tasks, s.cursorTask);
      s.(columns := s.columns[s.cursorColumn := col.(tasks := rest)],
         cursorTask := if s.cursorTask >= |rest| && s.cursorTask > 0 then s.cursorTask - 1 else s.cursorTask,
         failed := s.failed || !saveOk)
    else s
  }

  /** A move key outside input mode: the task under the cursor goes to the end of column
      `dest`, and the cursor follows it. */
  function MoveTask(s: State, dest: int, saveOk: bool): (r: State)
    requires CursorValid(s)
    requires 0 <= dest < |s.columns| && dest != s.cursorColumn
    ensures CursorValid(r)
    ensures r == s.(columns := r.columns, cursorColumn := r.cursorColumn, cursorTask := r.cursorTask, failed := r.failed)
  {
    var src := s.columns[s.cursorColumn];
    if |src.tasks| > 0 then
      var task := src.tasks[s.cursorTask];
      var cols := s.columns[s.cursorColumn := src.(tasks := RemoveAt(src.tasks, s.cursorTask))];
      var moved := cols[dest].tasks + [task];
      s.(columns := cols[dest := cols[dest].(tasks := moved)],
         cursorColumn := dest,
         cursorTask := |moved| - 1,
         failed := s.failed || !saveOk)
    else s
  }

  /** Enter: outside input mode nothing; with text, add it as a task; with no text, leave input mode. */
  function EnterKey(s: State, env: Env): (r: State)
    requires CursorValid(s)
    ensures CursorValid(r)
  {
    if !s.inputMode then s
    else if s.buffer != "" then AddTask(s, env)
    else s.(inputMode := false)
  }

  /** Up and down: move within the cursor column, clamped to its tasks. */
  function VerticalKey(s: State, down: bool): (r: State)
    requires CursorValid(s)
    ensures CursorValid(r)
    ensures r == s.(cursorTask := r.cursorTask)
  {
    if !s.inputMode && |CursorTasks(s)| > 0 then
      s.(cursorTask := if down then Min(|CursorTasks(s)| - 1, s.cursorTask + 1) else Max(0, s.cursorTask - 1))
    else s
  }

  /** Left and right: step to the adjacent column, if there is one, at its first slot. */
  function HorizontalKey(s: State, right: bool): (r: State)
    requires CursorValid(s)
    ensures CursorValid(r)
    ensures r == s.(cursorColumn := r.cursorColumn, cursorTask := r.cursorTask)
  {
    if right then
      if !s.inputMode && s.cursorColumn < |s.columns| - 1
      then s.(cursorColumn := s.cursorColumn + 1, cursorTask := 0) else s
    else
      if !s.inputMode && s.cursorColumn > 0
      then s.(cursorColumn := s.cursorColumn - 1, cursorTask := 0) else s
  }

  /** The move keys: carry the task under the cursor to the adjacent column, if there is one. */
  function MoveKey(s: State, right: bool, saveOk: bool): (r: State)
    requires CursorValid(s)
    ensures CursorValid(r)
  {
    if right then
      if !s.inputMode && s.cursorColumn < |s.columns| - 1
      then MoveTask(s, s.cursorColumn + 1, saveOk) else s
    else
      if !s.inputMode && s.cursorColumn > 0
      then MoveTask(s, s.cursorColumn - 1, saveOk) else s
  }

  /** The keys that govern quitting, help and input mode. */
  predicate IsControlKey(k: Key)
  {
    k in {CtrlC, Q, Help, A, Enter, Esc}
  }

  /** The key cases of `Update` that end in `return`: for them the text input never sees the key. */
  predicate ReturnsEarly(s: State, k: Key)
  {
    k in {CtrlC, Q, Help} || (k == A && !s.inputMode)
  }

  /** The switch cases for the control keys. */
  function ControlSwitch(s: State, k: Key, env: Env): (r: State)
    requires CursorValid(s) && IsControlKey(k)
    ensures CursorValid(r)
  {
    match k
    case CtrlC | Q =>
      if env.saveOk then s.(quitting := true) else s.(failed := true)
    case Help =>
      s.(showHelp := !s.showHelp)
    case A =>
      if !s.inputMode then s.(inputMode := true) else s
    case Enter =>
      EnterKey(s, env)
    case Esc =>
      if s.inputMode then s.(inputMode := false, buffer := "") else s
  }

  /** What a key that is not a control key does: the groups of key strings that share a
      case of the switch. */
  datatype BoardAction = Delete | Vertical(down: bool) | Horizontal(right: bool) | Move(right: bool) | Ignore

  function ActionOf(k: Key): BoardAction
  {
    match k
    case D => Delete
    case Up | K => Vertical(false)
    case Down | J => Vertical(true)
    case Left | H => Horizontal(false)
    case Right | L => Horizontal(true)
    case OpenBracket | OpenBrace => Move(false)
    case CloseBracket | CloseBrace => Move(true)
    case _ => Ignore
  }

  /** The switch cases for the keys that act on the board and the cursor. */
  function BoardSwitch(s: State, k: Key, env: Env): (r: State)
    requires CursorValid(s) && !IsControlKey(k)
    ensures CursorValid(r)
  {
    Perform(s, ActionOf(k), env.saveOk)
  }

  function Perform(s: State, a: BoardAction, saveOk: bool): (r: State)
    requires CursorValid(s)
    ensures CursorValid(r)
  {
    match a
    case Delete => if !s.inputMode && |s.columns| > 0 then DeleteTask(s, saveOk) else s
    case Vertical(down) => VerticalKey(s, down)
    case Horizontal(right) => HorizontalKey(s, right)
    case Move(right) => MoveKey(s, right, saveOk)
    case Ignore => s
  }

  /** One key press: the switch on the key, then, unless its case returned, the key goes
      on to the text input when input mode is still on. */
  function Step(s: State, k: Key, env: Env): (r: State)
    requires CursorValid(s)
    ensures CursorValid(r)
  {
    var t := if IsControlKey(k) then ControlSwitch(s, k, env) else BoardSwitch(s, k, env);
    if ReturnsEarly(s, k) then t else Forward(t, env)
  }

  /** Whether the key press calls `saveBoard`. */
  predicate Saves(s: State, k: Key)
    requires CursorValid(s)
  {
    if IsControlKey(k) then k in {CtrlC, Q} || (k == Enter && s.inputMode && s.buffer != "")
    else PerformSaves(s, ActionOf(k))
  }

  predicate PerformSaves(s: State, a: BoardAction)
    requires CursorValid(s)
  {
    match a
    case Delete => !s.inputMode && |CursorTasks(s)| > 0
    case Move(right) =>
      !s.inputMode && (if right then s.cursorColumn < |s.columns| - 1 else s.cursorColumn > 0)
      && |CursorTasks(s)| > 0
    case _ => false
  }

  /** Whether the key press creates a task. */
  predicate Adds(s: State, k: Key)
  {
    k == Enter && s.inputMode && s.buffer != ""
  }

  /** The state after a sequence of key presses. Keys go on being applied after
      `quitting` is set, although the runtime stops delivering them once `Update` has
      returned the quit command; the run lemmas thus cover more runs than can happen. */
  function Run(s: State, events: seq<Event>): (r: State)
    requires CursorValid(s)
    ensures CursorValid(r)
    decreases |events|
  {
    if events == [] then s else Run(Step(s, events[0].key, events[0].env), events[1..])
  }

  /** The ids of the tasks created along a run, in order of creation. */
  function NewIds(s: State, events: seq<Event>): seq<int>
    requires CursorValid(s)
    decreases |events|
  {
    if events == [] then []
    else
      var next := Step(s, events[0].key, events[0].env);
      (if Adds(s, events[0].key) then [next.lastID] else []) + NewIds(next, events[1..])
  }
}
