/** The board state of src/App.tsx on the heap. `weekData.columns` is an array of column objects;
    some updaters build new column objects (`{ ...column, tasks }`), others assign `column.tasks` on
    the column objects they find, which the snapshot `originalWeekData` shares. Each updater is
    applied whole, in the order the handlers issue them. */
module Board {
  import opened Wrappers
  import opened Dates
  import opened Week
  import Api

  const TaskNotFound := "任务未找到"
  const UpdateFailed := "更新任务失败"
  const CreateFailed := "创建任务失败"
  const DeleteFailed := "删除任务失败"

  /** One object of `weekData.columns`. */
  class Column {
    const date: Day
    var tasks: seq<Task>

    constructor(date: Day, tasks: seq<Task>)
      ensures this.date == date && this.tasks == tasks
    {
      this.date := date;
      this.tasks := tasks;
    }
  }

  /** No column object appears twice in the array. */
  predicate Distinct(cs: seq<Column>) {
    forall i, j :: 0 <= i < j < |cs| ==> cs[i] != cs[j]
  }

  /** What an array of column objects shows. */
  function View(cs: seq<Column>): (v: seq<ColumnView>)
    reads cs
    ensures |v| == |cs|
    ensures forall i :: 0 <= i < |cs| ==> v[i] == ColumnView(cs[i].date, cs[i].tasks)
  {
    if cs == [] then [] else [ColumnView(cs[0].date, cs[0].tasks)] + View(cs[1..])
  }

  /** New column objects showing `views`: what `Array.from` and `columns.map(column => ({ ...column,
      tasks }))` allocate. */
  method NewColumns(views: seq<ColumnView>) returns (cs: seq<Column>)
    ensures Distinct(cs) && View(cs) == views
    ensures forall i :: 0 <= i < |cs| ==> fresh(cs[i])
  {
    cs := [];
    for i := 0 to |views|
      invariant |cs| == i && Distinct(cs)
      invariant forall j :: 0 <= j < i ==> fresh(cs[j])
      invariant forall j :: 0 <= j < i ==> cs[j].date == views[j].date && cs[j].tasks == views[j].tasks
    {
      var c := new Column(views[i].date, views[i].tasks);
      cs := cs + [c];
    }
  }

  /** `column.tasks = tasks` on the k-th column object: only that column's tasks change. */
  method SetTasks(cs: seq<Column>, k: nat, tasks: seq<Task>)
    requires Distinct(cs) && k < |cs|
    modifies cs[k]
    ensures View(cs) == old(View(cs))[k := ColumnView(cs[k].date, tasks)]
  {
    cs[k].tasks := tasks;
  }

  /** The array with its k-th object replaced by a new column object showing `date` and `tasks`. */
  method WithNewColumn(cs: seq<Column>, k: nat, date: Day, tasks: seq<Task>) returns (ns: seq<Column>)
    requires Distinct(cs) && k < |cs|
    ensures Distinct(ns) && View(ns) == old(View(cs))[k := ColumnView(date, tasks)]
    ensures |ns| == |cs| && fresh(ns[k]) && forall i :: 0 <= i < |cs| && i != k ==> ns[i] == cs[i]
  {
    ghost var before := View(cs);
    var c := new Column(date, tasks);
    ns := cs[k := c];
    assert View(ns) == before[k := ColumnView(date, tasks)] by {
      var v, w := View(ns), before[k := ColumnView(date, tasks)];
      assert |v| == |w|;
      forall i | 0 <= i < |v| ensures v[i] == w[i] {
        if i != k { assert ns[i] == cs[i]; }
      }
    }
  }

  /** The array with the first column object dated `date`, if any, replaced by a new one holding
      `tasks`. */
  method CopiedColumns(cs: seq<Column>, date: Day, tasks: seq<Task>) returns (ns: seq<Column>)
    requires Distinct(cs)
    ensures Distinct(ns) && View(ns) == InColumn(old(View(cs)), date, tasks)
  {
    var k := FirstWithDate(View(cs), date);
    if k.Some? {
      ns := WithNewColumn(cs, k.value, date, tasks);
    } else {
      ns := cs;
    }
  }

  /** The move updater's new array: every column is a new object without the task, and the first
      one with the target date then gets the task spliced in. */
  method MovedColumns(view: seq<ColumnView>, t: Task, toDate: Day, toIndex: int) returns (cs: seq<Column>)
    ensures Distinct(cs) && View(cs) == MoveView(view, t, toDate, toIndex)
    ensures forall i :: 0 <= i < |cs| ==> fresh(cs[i])
  {
    cs := NewColumns(RemoveFromAll(view, t.id));
    var k := FirstWithDate(View(cs), toDate);
    if k.Some? {
      SetTasks(cs, k.value, Splice(cs[k.value].tasks, toIndex, t.(date := toDate)));
    }
  }

  /** The component's state: `weekData.columns` and `error`. */
  class Board {
    var columns: seq<Column>
    var error: Option<string>

    ghost predicate Valid()
      reads this
    {
      Distinct(columns)
    }

    /** `useState<WeekData>({ columns: [] })` and `useState(null)`. */
    constructor()
      ensures Valid() && columns == [] && error == None
    {
      columns := [];
      error := None;
    }

    /** fetchWeekTasks (App.tsx:40-83) once its fetch has settled: the error is cleared, then either
        seven new columns show the fetched week or the error shows the failure's message and the
        columns stay. */
    method Load(anchor: Day, fetched: Api.ApiResult<seq<Task>>)
      requires Valid()
      modifies this
      ensures Valid()
      ensures fetched.Ok? ==> View(columns) == WeekColumns(anchor, fetched.value) && error == None
      ensures fetched.Ok? ==> forall i :: 0 <= i < |columns| ==> fresh(columns[i])
      ensures !fetched.Ok? ==> columns == old(columns) && error == Some(fetched.message)
    {
      error := None;
      if !fetched.Ok? {
        error := Some(fetched.message);
        return;
      }
      columns := NewColumns(WeekColumns(anchor, fetched.value));
    }

    /** The local half of handleTaskMove (App.tsx:92-123): the task is looked up in the source
        column; when it is missing the error is set and nothing else changes. Otherwise the columns
        are rebuilt as new objects without the task, and the first one with the target date gets it
        spliced in at the index with the target date. The found task is returned; its content,
        completion and the target date are what the update request carries. */
    method Move(taskId: string, fromDate: Day, toDate: Day, toIndex: int) returns (moved: Option<Task>)
      requires Valid()
      modifies this
      ensures Valid()
      ensures moved == FindTask(old(View(columns)), fromDate, taskId)
      ensures moved.None? ==> columns == old(columns) && error == Some(TaskNotFound)
      ensures moved.Some? ==>
        View(columns) == MoveView(old(View(columns)), moved.value, toDate, toIndex) && error == old(error)
      ensures moved.Some? ==> forall i :: 0 <= i < |columns| ==> fresh(columns[i])
    {
      moved := FindTask(View(columns), fromDate, taskId);
      if moved.None? {
        error := Some(TaskNotFound);
      } else {
        ShowMoved(moved.value, toDate, toIndex);
      }
    }

    /** The move updater itself: the board shows the moved columns, all new objects. */
    method ShowMoved(t: Task, toDate: Day, toIndex: int)
      modifies this
      ensures Valid() && error == old(error)
      ensures View(columns) == MoveView(old(View(columns)), t, toDate, toIndex)
      ensures forall i :: 0 <= i < |columns| ==> fresh(columns[i])
    {
      columns := MovedColumns(View(columns), t, toDate, toIndex);
    }

    /** The reconciling updater (App.tsx:133-142, 186-195, 207-216): in the first column with the
        date, every task with the given task's id becomes that task; the column object is changed
        in place. */
    method Reconcile(date: Day, t: Task)
      requires Valid()
      modifies columns
      ensures View(columns) == ReplaceInColumn(old(View(columns)), date, t)
    {
      var k := FirstWithDate(View(columns), date);
      if k.Some? {
        var c := columns[k.value];
        c.tasks := ReplaceById(c.tasks, t);
      }
    }

    /** The optimistic create (App.tsx:275-282): the placeholder is appended to the first column with
        the date, in place. */
    method AppendPlaceholder(date: Day, t: Task)
      requires Valid()
      modifies columns
      ensures View(columns) == AppendInColumn(old(View(columns)), date, t)
    {
      var k := FirstWithDate(View(columns), date);
      if k.Some? {
        var c := columns[k.value];
        c.tasks := c.tasks + [t];
      }
    }

    /** The confirming create (App.tsx:294-303): in the first column with the date, every task whose
        id starts with "temp_" becomes the created task, in place. */
    method ConfirmCreate(date: Day, created: Task)
      requires Valid()
      modifies columns
      ensures View(columns) == ReplaceTempsInColumn(old(View(columns)), date, created)
    {
      var k := FirstWithDate(View(columns), date);
      if k.Some? {
        var c := columns[k.value];
        c.tasks := ReplaceTemps(c.tasks, created);
      }
    }

    /** The optimistic delete (App.tsx:233-240): every column is rebuilt as a new object without the
        task. */
    method DeleteEverywhere(taskId: string)
      requires Valid()
      modifies this
      ensures Valid() && error == old(error)
      ensures View(columns) == RemoveFromAll(old(View(columns)), taskId)
      ensures forall i :: 0 <= i < |columns| ==> fresh(columns[i])
    {
      columns := NewColumns(RemoveFromAll(View(columns), taskId));
    }

    /** `setWeekData(originalWeekData)`: the captured array of column objects is shown again, as
        those objects now are. */
    method Rollback(original: seq<Column>)
      requires Distinct(original)
      modifies this
      ensures Valid() && columns == original && error == old(error)
    {
      columns := original;
    }

    /** A failure after an optimistic updater: the rollback callback shows the captured columns and
        sets its own message; when `optimisticApi` then throws, the catch block rolls back once more
        and shows `err.message`, given as `caught`. None stands for a thrown value that is not an
        `Error`, whose fallback is the callback's own message, or, after a delete, for no throw. */
    method RollBackWith(original: seq<Column>, message: string, caught: Option<string>)
      requires Distinct(original)
      modifies this
      ensures Valid() && columns == original && error == Some(caught.GetOr(message))
    {
      Rollback(original);
      error := Some(message);
      if caught.Some? {
        Rollback(original);
        error := caught;
      }
    }

    /** handleTaskMove end to end (App.tsx:89-152), with the server's answer to the update and the
        outcome of the re-fetch the error path starts (settled before anything else happens). The
        update is sent exactly when the task is found. A failed lookup or update re-fetches, whose
        `setError(null)` clears the move's own message; when the re-fetch fails too, the board keeps
        what the move did. */
    method HandleMove(taskId: string, fromDate: Day, toDate: Day, toIndex: int, anchor: Day,
                      server: Api.ApiResult<Task>, refetched: Api.ApiResult<seq<Task>>)
      returns (sent: Option<Task>)
      requires Valid()
      modifies this, columns
      ensures Valid()
      ensures sent == FindTask(old(View(columns)), fromDate, taskId)
      ensures (sent.None? || !server.Ok?) && refetched.Ok? ==>
        View(columns) == WeekColumns(anchor, refetched.value) && error == None
      ensures sent.None? && !refetched.Ok? ==>
        View(columns) == old(View(columns)) && error == Some(refetched.message)
      ensures sent.Some? && !server.Ok? && !refetched.Ok? ==>
        View(columns) == MoveView(old(View(columns)), sent.value, toDate, toIndex) && error == Some(refetched.message)
      ensures sent.Some? && server.Ok? ==>
        View(columns) == ReplaceInColumn(MoveView(old(View(columns)), sent.value, toDate, toIndex), toDate, server.value) &&
        error == old(error)
    {
      sent := Move(taskId, fromDate, toDate, toIndex);
      if sent.None? {
        Load(anchor, refetched);
      } else {
        Settle(toDate, anchor, server, refetched);
      }
    }

    /** What handleTaskMove does once its update has settled (App.tsx:126-151): the reply is
        reconciled into the target column, or the failure's message is shown and the week is
        fetched again. */
    method Settle(toDate: Day, anchor: Day, server: Api.ApiResult<Task>, refetched: Api.ApiResult<seq<Task>>)
      requires Valid()
      modifies this, columns
      ensures Valid()
      ensures server.Ok? ==> View(columns) == ReplaceInColumn(old(View(columns)), toDate, server.value) && error == old(error)
      ensures !server.Ok? && refetched.Ok? ==> View(columns) == WeekColumns(anchor, refetched.value) && error == None
      ensures !server.Ok? && !refetched.Ok? ==> View(columns) == old(View(columns)) && error == Some(refetched.message)
    {
      if server.Ok? {
        Reconcile(toDate, server.value);
      } else {
        error := Some(server.message);
        Load(anchor, refetched);
      }
    }

    /** handleTaskUpdate when the optimistic callback has run and the update then fails
        (App.tsx:171, 184-203, 218-222): the rollback shows the captured column objects, but the
        optimistic callback changed one of them in place, so the board still shows the edit. */
    method UpdateRolledBack(date: Day, optimistic: Task, caught: Option<string>)
      requires Valid()
      modifies this, columns
      ensures Valid() && error == Some(caught.GetOr(UpdateFailed))
      ensures View(columns) == ReplaceInColumn(old(View(columns)), date, optimistic)
    {
      var original := columns;
      Reconcile(date, optimistic);
      RollBackWith(original, UpdateFailed, caught);
    }

    /** handleTaskCreate when the optimistic callback has run and the create then fails
        (App.tsx:261, 271-290, 305-309): the placeholder was appended in place to a captured column
        object, so it is still on the board after the rollback. */
    method CreateRolledBack(date: Day, placeholder: Task, caught: Option<string>)
      requires Valid()
      modifies this, columns
      ensures Valid() && error == Some(caught.GetOr(CreateFailed))
      ensures View(columns) == AppendInColumn(old(View(columns)), date, placeholder)
      ensures FirstWithDate(old(View(columns)), date).Some? ==> View(columns) != old(View(columns))
    {
      ghost var before := View(columns);
      var original := columns;
      AppendPlaceholder(date, placeholder);
      ghost var appended := View(columns);
      RollBackWith(original, CreateFailed, caught);
      assert View(columns) == appended;
      if FirstWithDate(before, date).Some? {
        AppendGoesLast(before, date, placeholder);
      }
    }

    /** handleTaskDelete when the optimistic callback has run and the delete then fails
        (App.tsx:227-257): the optimistic delete built new column objects, so the rollback does show
        the board as it was. */
    method DeleteRolledBack(taskId: string, caught: Option<string>)
      requires Valid()
      modifies this
      ensures Valid() && error == Some(caught.GetOr(DeleteFailed))
      ensures View(columns) == old(View(columns))
    {
      var original := columns;
      DeleteEverywhere(taskId);
      RollBackWith(original, DeleteFailed, caught);
    }

    /** An in-place updater written the way the delete updater is: the first column with the date is
        replaced by a new column object holding `tasks`, and the other column objects are kept. */
    method SetColumnCopying(date: Day, tasks: seq<Task>)
      requires Valid()
      modifies this
      ensures Valid() && error == old(error)
      ensures View(columns) == InColumn(old(View(columns)), date, tasks)
      ensures forall c :: c in old(columns) ==> c.tasks == old(c.tasks)
      ensures View(old(columns)) == old(View(columns))
    {
      columns := CopiedColumns(columns, date, tasks);
    }

    /** A failed create whose optimistic append copies the column instead of changing it: the
        rollback restores the board. */
    method CreateRolledBackCopying(date: Day, placeholder: Task, caught: Option<string>)
      requires Valid()
      modifies this
      ensures Valid() && error == Some(caught.GetOr(CreateFailed))
      ensures View(columns) == old(View(columns))
    {
      var original := columns;
      var k := FirstWithDate(View(columns), date);
      if k.Some? {
        SetColumnCopying(date, columns[k.value].tasks + [placeholder]);
      }
      RollBackWith(original, CreateFailed, caught);
    }

    /** A failed update whose optimistic replacement copies the column instead of changing it: the
        rollback restores the board. */
    method UpdateRolledBackCopying(date: Day, optimistic: Task, caught: Option<string>)
      requires Valid()
      modifies this
      ensures Valid() && error == Some(caught.GetOr(UpdateFailed))
      ensures View(columns) == old(View(columns))
    {
      var original := columns;
      var k := FirstWithDate(View(columns), date);
      if k.Some? {
        SetColumnCopying(date, ReplaceById(columns[k.value].tasks, optimistic));
      }
      RollBackWith(original, UpdateFailed, caught);
    }
  }
}
