/**
  The content decisions of `View` in gotask.go: which task line carries the selection
  marker, when a column shows the "No tasks" placeholder, and which optional parts
  (input dialog, error line, help line) the frame holds. Styling and layout are not
  part of this model; a frame is the list of choices the styling is applied to.
 */
module View {
  import opened Kanban

  /** One line of a column: a task with the selection marker, a task with the plain
      prefix, or the placeholder of an empty column. */
  datatype TaskLine = Selected(title: string) | Plain(title: string) | NoTasks

  datatype ColumnView = ColumnView(header: string, lines: seq<TaskLine>)

  /** `Loading` is the frame before the terminal size is known. A screen holds the
      columns side by side, the title of the column a new task goes to while in input
      mode, and whether the error and help lines are shown. */
  datatype Frame =
    | Loading
    | Screen(columns: seq<ColumnView>, dialogColumn: Option<string>, errorLine: bool, helpLine: bool)

  /** The column width is the frame width divided by the number of columns, and the
      input dialog names the cursor column: both need those to exist. */
  method Render(s: State, width: int) returns (f: Frame)
    requires width != 0 ==> |s.columns| > 0
    requires width != 0 && s.inputMode ==> 0 <= s.cursorColumn < |s.columns|
    ensures (width == 0) == (f == Loading)
    ensures width != 0 ==> f.Screen? && |f.columns| == |s.columns|
    ensures width != 0 ==> forall i :: 0 <= i < |s.columns| ==>
      f.columns[i].header == s.columns[i].title &&
      (s.columns[i].tasks == [] ==> f.columns[i].lines == [NoTasks]) &&
      (s.columns[i].tasks != [] ==> |f.columns[i].lines| == |s.columns[i].tasks|)
    ensures width != 0 ==> forall i, j :: 0 <= i < |s.columns| && 0 <= j < |s.columns[i].tasks| ==>
      |f.columns[i].lines| == |s.columns[i].tasks| &&
      !f.columns[i].lines[j].NoTasks? &&
      f.columns[i].lines[j].title == s.columns[i].tasks[j].title &&
      (f.columns[i].lines[j].Selected? <==> i == s.cursorColumn && j == s.cursorTask)
    ensures width != 0 && CursorValid(s) && CursorTasks(s) != [] ==>
      f.columns[s.cursorColumn].lines[s.cursorTask] == Selected(CursorTasks(s)[s.cursorTask].title)
    ensures width != 0 ==>
      f.dialogColumn == (if s.inputMode then Some(s.columns[s.cursorColumn].title) else None) &&
      f.errorLine == s.failed && f.helpLine == s.showHelp
  {
    if width == 0 {
      return Loading;
    }
    var rendered: seq<ColumnView> := [];
    for i := 0 to |s.columns|
      invariant |rendered| == i
      invariant forall c :: 0 <= c < i ==>
        rendered[c].header == s.columns[c].title &&
        (s.columns[c].tasks == [] ==> rendered[c].lines == [NoTasks]) &&
        (s.columns[c].tasks != [] ==> |rendered[c].lines| == |s.columns[c].tasks|)
      invariant forall c, j :: 0 <= c < i && 0 <= j < |s.columns[c].tasks| ==>
        |rendered[c].lines| == |s.columns[c].tasks| &&
        !rendered[c].lines[j].NoTasks? &&
        rendered[c].lines[j].title == s.columns[c].tasks[j].title &&
        (rendered[c].lines[j].Selected? <==> c == s.cursorColumn && j == s.cursorTask)
    {
      var tasks := s.columns[i].tasks;
      var lines: seq<TaskLine> := [];
      if |tasks| == 0 {
        lines := [NoTasks];
      } else {
        for j := 0 to |tasks|
          invariant |lines| == j
          invariant forall t :: 0 <= t < j ==>
            !lines[t].NoTasks? && lines[t].title == tasks[t].title &&
            (lines[t].Selected? <==> i == s.cursorColumn && t == s.cursorTask)
        {
          var line := if s.cursorColumn == i && s.cursorTask == j then Selected(tasks[j].title)
                      else Plain(tasks[j].title);
          lines := lines + [line];
        }
      }
      rendered := rendered + [ColumnView(s.columns[i].title, lines)];
    }
    var dialog := if s.inputMode then Some(s.columns[s.cursorColumn].title) else None;
    f := Screen(rendered, dialog, s.failed, s.showHelp);
  }
}
