/** The week board of src/App.tsx as values: a task, a day column, and the pure transitions the
    board's state updaters apply to the list of columns, with what they guarantee. Column dates and
    task dates are day numbers (what `format('YYYY-MM-DD')` names). */
module Week {
  import opened Wrappers
  import opened Json
  import opened Dates

  /** A task as the board holds it. */
  datatype Task = Task(id: string, content: string, completed: bool, date: Day)

  /** One day column: its date and its tasks, in display order. */
  datatype ColumnView = ColumnView(date: Day, tasks: seq<Task>)

  /** The prefix of the board's optimistic placeholder ids. */
  const TempPrefix := "temp_"

  // ---------------------------------------------------------------------------------------------
  // Loading a week

  /** `tasks.filter(task => <its day> === d)`: the reference for what a column should hold. */
  function OnDay(tasks: seq<Task>, d: Day): (r: seq<Task>)
    ensures forall t :: t in r <==> t in tasks && t.date == d
  {
    if tasks == [] then [] else (if tasks[0].date == d then [tasks[0]] else []) + OnDay(tasks[1..], d)
  }

  /** `acc[date] || []` */
  function Bucket(groups: map<Day, seq<Task>>, d: Day): seq<Task> {
    if d in groups then groups[d] else []
  }

  /** The `reduce` of fetchWeekTasks (App.tsx:56-63): each task is pushed, in list order, onto the
      array kept under its day, which is created on first use. */
  function GroupByDay(tasks: seq<Task>): map<Day, seq<Task>> {
    if tasks == [] then map[]
    else
      var acc := GroupByDay(tasks[..|tasks| - 1]);
      var t := tasks[|tasks| - 1];
      acc[t.date := Bucket(acc, t.date) + [t]]
  }

  lemma {:induction false} OnDaySnoc(tasks: seq<Task>, t: Task, d: Day)
    ensures OnDay(tasks + [t], d) == OnDay(tasks, d) + (if t.date == d then [t] else [])
  {
    if tasks != [] {
      assert (tasks + [t])[1..] == tasks[1..] + [t];
      OnDaySnoc(tasks[1..], t, d);
    }
  }

  /** Grouping keeps, under each day, exactly that day's tasks in list order. */
  lemma {:induction false} GroupByDayIsFilter(tasks: seq<Task>, d: Day)
    ensures Bucket(GroupByDay(tasks), d) == OnDay(tasks, d)
  {
    if tasks != [] {
      var init := tasks[..|tasks| - 1];
      var t := tasks[|tasks| - 1];
      assert tasks == init + [t];
      GroupByDayIsFilter(init, d);
      OnDaySnoc(init, t, d);
    }
  }

  /** The columns fetchWeekTasks builds (App.tsx:42, 66-75): seven, the Monday of the anchor's week
      first, each holding its day's tasks in the order the server returned them. */
  function WeekColumns(anchor: Day, tasks: seq<Task>): (w: seq<ColumnView>)
    ensures |w| == 7
    ensures forall i :: 0 <= i < 7 ==> w[i].date == MondayOf(anchor) + i
    ensures forall i :: 0 <= i < 7 ==> w[i].tasks == OnDay(tasks, MondayOf(anchor) + i)
  {
    var monday := MondayOf(anchor);
    var groups := GroupByDay(tasks);
    var w := seq(7, i requires 0 <= i < 7 => ColumnView(monday + i, Bucket(groups, monday + i)));
    assert forall i :: 0 <= i < 7 ==> w[i].tasks == OnDay(tasks, monday + i) by {
      forall i | 0 <= i < 7 ensures w[i].tasks == OnDay(tasks, monday + i) {
        GroupByDayIsFilter(tasks, monday + i);
      }
    }
    w
  }

  /** The week starts on a Monday, holds the anchor's day, and a task lands in the column of its own
      day when that day is in the week and in no column otherwise. */
  lemma WeekPlacement(anchor: Day, tasks: seq<Task>, t: Task)
    requires t in tasks
    ensures Weekday(WeekColumns(anchor, tasks)[0].date) == 0
    ensures WeekColumns(anchor, tasks)[0].date <= anchor <= WeekColumns(anchor, tasks)[6].date
    ensures forall i :: 0 <= i < 7 ==> (t in WeekColumns(anchor, tasks)[i].tasks <==> t.date == MondayOf(anchor) + i)
    ensures !(MondayOf(anchor) <= t.date < MondayOf(anchor) + 7) ==>
      forall i :: 0 <= i < 7 ==> t !in WeekColumns(anchor, tasks)[i].tasks
  {
  }

  // ---------------------------------------------------------------------------------------------
  // Finding things on the board

  /** `columns.find(col => col.date === d)`: the index of the first column with that date. */
  function FirstWithDate(view: seq<ColumnView>, d: Day): (k: Option<nat>)
    ensures k.Some? ==> k.value < |view| && view[k.value].date == d
    ensures k.Some? ==> forall c :: 0 <= c < k.value ==> view[c].date != d
    ensures k.None? <==> forall c :: 0 <= c < |view| ==> view[c].date != d
  {
    if view == [] then None
    else if view[0].date == d then Some(0)
    else match FirstWithDate(view[1..], d)
      case None => None
      case Some(k) => Some(k + 1)
  }

  /** `tasks.find(task => task.id === id)` */
  function FirstById(tasks: seq<Task>, id: string): (r: Option<Task>)
    ensures r.Some? ==> r.value in tasks && r.value.id == id
    ensures r.None? <==> forall j :: 0 <= j < |tasks| ==> tasks[j].id != id
  {
    if tasks == [] then None
    else if tasks[0].id == id then Some(tasks[0])
    else FirstById(tasks[1..], id)
  }

  /** The task handleTaskMove looks up (App.tsx:92-94): in the first column with the source date,
      the first task with the id. */
  function FindTask(view: seq<ColumnView>, fromDate: Day, id: string): (r: Option<Task>)
    ensures r.Some? ==>
      FirstWithDate(view, fromDate).Some? && r.value.id == id && r.value in view[FirstWithDate(view, fromDate).value].tasks
    ensures r.None? <==>
      (|| FirstWithDate(view, fromDate).None?
       || forall j :: 0 <= j < |view[FirstWithDate(view, fromDate).value].tasks| ==>
            view[FirstWithDate(view, fromDate).value].tasks[j].id != id)
  {
    match FirstWithDate(view, fromDate)
    case None => None
    case Some(k) => FirstById(view[k].tasks, id)
  }

  // ---------------------------------------------------------------------------------------------
  // Removing and inserting

  /** `tasks.filter(task => task.id !== id)` */
  function Without(tasks: seq<Task>, id: string): (r: seq<Task>)
    ensures |r| <= |tasks|
    ensures forall t :: t in r <==> t in tasks && t.id != id
  {
    if tasks == [] then [] else (if tasks[0].id == id then [] else [tasks[0]]) + Without(tasks[1..], id)
  }

  /** Filtering out an id that no task has changes nothing. */
  lemma {:induction false} WithoutAbsent(tasks: seq<Task>, id: string)
    requires forall j :: 0 <= j < |tasks| ==> tasks[j].id != id
    ensures Without(tasks, id) == tasks
  {
    if tasks != [] {
      WithoutAbsent(tasks[1..], id);
    }
  }

  lemma {:induction false} WithoutConcat(a: seq<Task>, b: seq<Task>, id: string)
    ensures Without(a + b, id) == Without(a, id) + Without(b, id)
  {
    if a != [] {
      assert (a + b)[0] == a[0] && (a + b)[1..] == a[1..] + b;
      WithoutConcat(a[1..], b, id);
    } else {
      assert a + b == b;
    }
  }

  /** Every column with the id filtered out (App.tsx:105-108 and 236-239). */
  function RemoveFromAll(view: seq<ColumnView>, id: string): (r: seq<ColumnView>)
    ensures |r| == |view|
    ensures forall c :: 0 <= c < |view| ==> r[c] == ColumnView(view[c].date, Without(view[c].tasks, id))
  {
    seq(|view|, c requires 0 <= c < |view| => ColumnView(view[c].date, Without(view[c].tasks, id)))
  }

  /** Deleting from every column leaves no task with the id anywhere, keeps every other task in its
      column, and deleting again changes nothing. */
  lemma DeleteRemovesOnlyThatId(view: seq<ColumnView>, id: string)
    ensures forall c, x :: 0 <= c < |view| ==>
      (x in RemoveFromAll(view, id)[c].tasks <==> x in view[c].tasks && x.id != id)
    ensures forall c :: 0 <= c < |view| ==> RemoveFromAll(view, id)[c].date == view[c].date
    ensures RemoveFromAll(RemoveFromAll(view, id), id) == RemoveFromAll(view, id)
  {
    var r := RemoveFromAll(view, id);
    forall c | 0 <= c < |view| ensures Without(r[c].tasks, id) == r[c].tasks {
      WithoutAbsent(r[c].tasks, id);
    }
  }

  /** Where `splice(index, 0, x)` inserts into an array of length `len`: a negative index counts
      from the end and stops at 0, a large one stops at the end. */
  function InsertPos(len: nat, index: int): (p: nat)
    ensures p <= len
    ensures 0 <= index ==> p == if index < len then index else len
  {
    if index < 0 then (if len + index < 0 then 0 else len + index)
    else if index < len then index else len
  }

  /** `const a = [...s]; a.splice(index, 0, x)` */
  function Splice(s: seq<Task>, index: int, x: Task): (r: seq<Task>)
    ensures |r| == |s| + 1
    ensures r[InsertPos(|s|, index)] == x
    ensures r[..InsertPos(|s|, index)] == s[..InsertPos(|s|, index)]
    ensures r[InsertPos(|s|, index) + 1..] == s[InsertPos(|s|, index)..]
  {
    var p := InsertPos(|s|, index);
    s[..p] + [x] + s[p..]
  }

  /** The optimistic move (App.tsx:101-123): the task leaves every column and, when a column has the
      target date, enters the first such column at the splice position with its date set to it. */
  function MoveView(view: seq<ColumnView>, t: Task, toDate: Day, toIndex: int): seq<ColumnView> {
    var r := RemoveFromAll(view, t.id);
    match FirstWithDate(r, toDate)
    case None => r
    case Some(k) => r[k := ColumnView(r[k].date, Splice(r[k].tasks, toIndex, t.(date := toDate)))]
  }

  /** With a target column, the moved task ends up in it at index min(toIndex, length after the
      removal) for a non-negative index, carrying the target date. */
  lemma MovePlacesTask(view: seq<ColumnView>, t: Task, toDate: Day, toIndex: int)
    requires FirstWithDate(view, toDate).Some?
    ensures var k := FirstWithDate(view, toDate).value;
      var p := InsertPos(|Without(view[k].tasks, t.id)|, toIndex);
      && |MoveView(view, t, toDate, toIndex)| == |view|
      && p < |MoveView(view, t, toDate, toIndex)[k].tasks|
      && MoveView(view, t, toDate, toIndex)[k].tasks[p] == t.(date := toDate)
      && MoveView(view, t, toDate, toIndex)[k].date == toDate
  {
    SameFirstAfterRemoval(view, t.id, toDate);
  }

  /** Filtering tasks out keeps every column date, so the first column with a date stays first. */
  lemma SameFirstAfterRemoval(view: seq<ColumnView>, id: string, d: Day)
    ensures FirstWithDate(RemoveFromAll(view, id), d) == FirstWithDate(view, d)
  {
    var r := RemoveFromAll(view, id);
    assert forall c :: 0 <= c < |view| ==> r[c].date == view[c].date;
  }

  /** After a move into an existing column, the id occurs exactly once on the board: at the insert
      position of the target column. */
  lemma MoveOccursOnce(view: seq<ColumnView>, t: Task, toDate: Day, toIndex: int)
    requires FirstWithDate(view, toDate).Some?
    ensures var r := MoveView(view, t, toDate, toIndex);
      var k := FirstWithDate(view, toDate).value;
      var p := InsertPos(|Without(view[k].tasks, t.id)|, toIndex);
      forall c, j :: 0 <= c < |r| && 0 <= j < |r[c].tasks| ==>
        (r[c].tasks[j].id == t.id <==> c == k && j == p)
  {
    SameFirstAfterRemoval(view, t.id, toDate);
    var r := MoveView(view, t, toDate, toIndex);
    var removed := RemoveFromAll(view, t.id);
    var k := FirstWithDate(view, toDate).value;
    var s := removed[k].tasks;
    var p := InsertPos(|s|, toIndex);
    forall c, j | 0 <= c < |r| && 0 <= j < |r[c].tasks| ensures r[c].tasks[j].id == t.id <==> c == k && j == p {
      if c != k {
        assert r[c].tasks[j] in removed[c].tasks;
      } else if j < p {
        assert r[c].tasks[j] == s[j] && s[j] in s;
      } else if j > p {
        assert r[c].tasks[j] == r[c].tasks[p + 1..][j - p - 1] == s[p..][j - p - 1] == s[j - 1];
        assert s[j - 1] in s;
      }
    }
  }

  /** Filtering out the id of the one task between two runs without that id leaves the two runs. */
  lemma {:induction false} WithoutAround(a: seq<Task>, x: Task, b: seq<Task>)
    requires forall j :: 0 <= j < |a| ==> a[j].id != x.id
    requires forall j :: 0 <= j < |b| ==> b[j].id != x.id
    ensures Without(a + [x] + b, x.id) == a + b
  {
    var id := x.id;
    assert Without([x], id) == [] by {
      assert [x][1..] == [];
    }
    calc {
      Without(a + [x] + b, id);
      { WithoutConcat(a + [x], b, id); }
      Without(a + [x], id) + Without(b, id);
      { WithoutConcat(a, [x], id); }
      Without(a, id) + [] + Without(b, id);
      { WithoutAbsent(a, id); WithoutAbsent(b, id); }
      a + [] + b;
    }
  }

  /** Filtering the inserted task's id out of a splice into a column without that id gives the
      column back. */
  lemma WithoutSplice(s: seq<Task>, index: int, x: Task)
    requires forall j :: 0 <= j < |s| ==> s[j].id != x.id
    ensures Without(Splice(s, index, x), x.id) == s
  {
    var p := InsertPos(|s|, index);
    WithoutAround(s[..p], x, s[p..]);
    assert s[..p] + s[p..] == s;
  }

  /** A move keeps every other task in its column and in its order: with the moved id filtered out,
      each column is as before. */
  lemma MoveKeepsOthers(view: seq<ColumnView>, t: Task, toDate: Day, toIndex: int)
    ensures |MoveView(view, t, toDate, toIndex)| == |view|
    ensures forall c :: 0 <= c < |view| ==>
      MoveView(view, t, toDate, toIndex)[c].date == view[c].date &&
      Without(MoveView(view, t, toDate, toIndex)[c].tasks, t.id) == Without(view[c].tasks, t.id)
  {
    var removed := RemoveFromAll(view, t.id);
    var r := MoveView(view, t, toDate, toIndex);
    var target := FirstWithDate(removed, toDate);
    forall c | 0 <= c < |view|
      ensures r[c].date == view[c].date && Without(r[c].tasks, t.id) == Without(view[c].tasks, t.id)
    {
      WithoutAbsent(removed[c].tasks, t.id);
      if target == Some(c) {
        WithoutSplice(removed[c].tasks, toIndex, t.(date := toDate));
      }
    }
  }

  /** Without a column of the target date the move only removes: the task is gone from the board. */
  lemma MoveWithoutTarget(view: seq<ColumnView>, t: Task, toDate: Day, toIndex: int)
    requires FirstWithDate(view, toDate).None?
    ensures MoveView(view, t, toDate, toIndex) == RemoveFromAll(view, t.id)
    ensures forall c, x :: 0 <= c < |view| && x in MoveView(view, t, toDate, toIndex)[c].tasks ==> x.id != t.id
  {
    SameFirstAfterRemoval(view, t.id, toDate);
  }

  // ---------------------------------------------------------------------------------------------
  // Replacing and appending in one column

  /** `tasks.map(x => x.id === t.id ? t : x)` */
  function ReplaceById(tasks: seq<Task>, t: Task): seq<Task> {
    seq(|tasks|, j requires 0 <= j < |tasks| => if tasks[j].id == t.id then t else tasks[j])
  }

  /** `tasks.map(x => x.id.startsWith('temp_') ? created : x)` */
  function ReplaceTemps(tasks: seq<Task>, created: Task): seq<Task> {
    seq(|tasks|, j requires 0 <= j < |tasks| => if StartsWith(tasks[j].id, TempPrefix) then created else tasks[j])
  }

  /** A column's tasks replaced through `f`, in the first column with the date only. */
  function InColumn(view: seq<ColumnView>, d: Day, tasks: seq<Task>): (r: seq<ColumnView>)
    ensures |r| == |view|
    ensures FirstWithDate(view, d).None? ==> r == view
    ensures FirstWithDate(view, d).Some? ==>
      r == view[FirstWithDate(view, d).value := ColumnView(d, tasks)]
  {
    match FirstWithDate(view, d)
    case None => view
    case Some(k) => view[k := ColumnView(d, tasks)]
  }

  /** The reconciling updater (App.tsx:133-142, 186-195, 207-216): in the first column with the date,
      every task with the reply's id becomes the reply. */
  function ReplaceInColumn(view: seq<ColumnView>, d: Day, t: Task): seq<ColumnView> {
    match FirstWithDate(view, d)
    case None => view
    case Some(k) => InColumn(view, d, ReplaceById(view[k].tasks, t))
  }

  /** The optimistic create (App.tsx:275-282): the placeholder goes to the end of the first column
      with the date. */
  function AppendInColumn(view: seq<ColumnView>, d: Day, t: Task): seq<ColumnView> {
    match FirstWithDate(view, d)
    case None => view
    case Some(k) => InColumn(view, d, view[k].tasks + [t])
  }

  /** The confirming create (App.tsx:294-303): in the first column with the date, every placeholder
      becomes the created task. */
  function ReplaceTempsInColumn(view: seq<ColumnView>, d: Day, created: Task): seq<ColumnView> {
    match FirstWithDate(view, d)
    case None => view
    case Some(k) => InColumn(view, d, ReplaceTemps(view[k].tasks, created))
  }

  /** Reconciling touches only the tasks with the reply's id in the column named by the date: a stale
      copy of the task in any other column stays as it was, and the column keeps its length. */
  lemma ReplaceOnlyInNamedColumn(view: seq<ColumnView>, d: Day, t: Task)
    ensures |ReplaceInColumn(view, d, t)| == |view|
    ensures forall c :: 0 <= c < |view| && Some(c) != FirstWithDate(view, d) ==>
      ReplaceInColumn(view, d, t)[c] == view[c]
    ensures FirstWithDate(view, d).Some? ==>
      var k := FirstWithDate(view, d).value;
      && |ReplaceInColumn(view, d, t)[k].tasks| == |view[k].tasks|
      && forall j :: 0 <= j < |view[k].tasks| ==>
        ReplaceInColumn(view, d, t)[k].tasks[j] == if view[k].tasks[j].id == t.id then t else view[k].tasks[j]
  {
  }

  /** Creating appends at the end of the named column: the column is as before plus the placeholder. */
  lemma AppendGoesLast(view: seq<ColumnView>, d: Day, t: Task)
    requires FirstWithDate(view, d).Some?
    ensures var k := FirstWithDate(view, d).value;
      AppendInColumn(view, d, t)[k].tasks == view[k].tasks + [t]
    ensures AppendInColumn(view, d, t) != view
  {
    var k := FirstWithDate(view, d).value;
    assert |AppendInColumn(view, d, t)[k].tasks| != |view[k].tasks|;
  }

  /** Confirming a create turns every placeholder in the named column into the created task, so two
      pending placeholders both become that one task; when the created id is not a placeholder id,
      the column holds no placeholder afterwards. */
  lemma ConfirmReplacesEveryTemp(view: seq<ColumnView>, d: Day, created: Task)
    requires FirstWithDate(view, d).Some?
    ensures var k := FirstWithDate(view, d).value;
      var after := ReplaceTempsInColumn(view, d, created)[k].tasks;
      && |after| == |view[k].tasks|
      && (forall j :: 0 <= j < |after| && StartsWith(view[k].tasks[j].id, TempPrefix) ==> after[j] == created)
      && (forall j :: 0 <= j < |after| && !StartsWith(view[k].tasks[j].id, TempPrefix) ==> after[j] == view[k].tasks[j])
      && (!StartsWith(created.id, TempPrefix) ==> forall j :: 0 <= j < |after| ==> !StartsWith(after[j].id, TempPrefix))
  {
  }

  /** Two placeholders in one column, one creation confirmed: both show the created task. */
  lemma TwoTempsBecomeOneTask(a: Task, b: Task, created: Task, d: Day)
    requires StartsWith(a.id, TempPrefix) && StartsWith(b.id, TempPrefix)
    ensures ReplaceTempsInColumn([ColumnView(d, [a, b])], d, created) == [ColumnView(d, [created, created])]
  {
    assert FirstWithDate([ColumnView(d, [a, b])], d) == Some(0);
    assert ReplaceTemps([a, b], created) == [created, created];
  }

  // ---------------------------------------------------------------------------------------------
  // Drag end

  /** Where a drag starts or ends: a column (its date) and an index in it. */
  datatype Location = Location(droppableId: Day, index: int)

  datatype DropResult = DropResult(draggableId: string, source: Option<Location>, destination: Option<Location>)

  /** The arguments handleDragEnd passes to handleTaskMove. */
  datatype MoveCall = MoveCall(taskId: string, fromDate: Day, toDate: Day, toIndex: int)

  /** handleDragEnd (App.tsx:154-168): nothing when the drop has no source or destination or lands
      where it started; otherwise a move of the dragged task from the source column to the
      destination column and index. */
  function DragEnd(result: DropResult): (call: Option<MoveCall>)
    ensures call.None? <==>
      result.destination.None? || result.source.None? || result.source.value == result.destination.value
    ensures call.Some? ==> call.value == MoveCall(result.draggableId, result.source.value.droppableId,
                                                  result.destination.value.droppableId, result.destination.value.index)
  {
    if result.destination.None? || result.source.None? then None
    else if result.source.value.droppableId == result.destination.value.droppableId &&
            result.source.value.index == result.destination.value.index then None
    else Some(MoveCall(result.draggableId, result.source.value.droppableId,
                       result.destination.value.droppableId, result.destination.value.index))
  }

  /** A drop at another index of the same column is a move within that column. */
  lemma ReorderIsMove(id: string, d: Day, i: int, j: int)
    requires i != j
    ensures DragEnd(DropResult(id, Some(Location(d, i)), Some(Location(d, j)))) == Some(MoveCall(id, d, d, j))
  {
  }
}
