/**
  What loading the board does once the snapshot file has been decoded: the id counter
  is raised to the highest task id found on the board (`loadBoard` in gotask.go).
 */
module Load {
  import opened Kanban

  /** Scans every task of every column and returns the larger of `lastID` and the
      highest task id: the least value that is at least `lastID` and no smaller than any
      id on the board. */
  method HighestId(columns: seq<Column>, lastID: int) returns (highest: int)
    ensures highest >= lastID
    ensures IdsAtMost(columns, highest)
    ensures highest == lastID ||
      exists i, j :: 0 <= i < |columns| && 0 <= j < |columns[i].tasks| && columns[i].tasks[j].id == highest
  {
    highest := lastID;
    for i := 0 to |columns|
      invariant highest >= lastID
      invariant IdsAtMost(columns[..i], highest)
      invariant highest == lastID ||
        exists c, j :: 0 <= c < i && 0 <= j < |columns[c].tasks| && columns[c].tasks[j].id == highest
    {
      var tasks := columns[i].tasks;
      for j := 0 to |tasks|
        invariant highest >= lastID
        invariant IdsAtMost(columns[..i], highest)
        invariant forall t :: 0 <= t < j ==> tasks[t].id <= highest
        invariant highest == lastID ||
          (exists c, t :: 0 <= c < i && 0 <= t < |columns[c].tasks| && columns[c].tasks[t].id == highest) ||
          (exists t :: 0 <= t < j && tasks[t].id == highest)
      {
        if tasks[j].id > highest {
          highest := tasks[j].id;
        }
      }
      assert columns[..i + 1] == columns[..i] + [columns[i]];
    }
    assert columns[..|columns|] == columns;
  }
}
