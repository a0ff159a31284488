/** src/analyzer/task_table.rs: the analyzer's coroutine tasks, each a flat cursor over
    its coroutine's statements, kept in a table by task name. */
module TaskTables {
  import opened Wrappers
  import opened Cursors
  import opened LateSyntax

  /** The value a task holds; the table stores tasks by value (`get_task` clones). */
  datatype TaskValue = TaskValue(taskName: string, coroutineName: string, cursor: Cursor,
                                 process: seq<PrivateNode>)

  /** The task `CoroutineTask::new` builds. */
  function NewTask(taskName: string, coroutineName: string, process: BlockNode): (t: TaskValue)
    ensures t.taskName == taskName && t.coroutineName == coroutineName
    ensures t.cursor == Fresh && t.process == process.statements
  {
    TaskValue(taskName, coroutineName, Fresh, process.statements)
  }

  class CoroutineTask {
    var taskName: string
    var coroutineName: string
    var status: Status
    var currentPosition: nat
    var process: seq<PrivateNode>

    function Value(): TaskValue
      reads this
    {
      TaskValue(taskName, coroutineName, Cursor(status, currentPosition), process)
    }

    /** `CoroutineTask::new`. */
    constructor(taskName: string, coroutineName: string, process: BlockNode)
      ensures Value() == NewTask(taskName, coroutineName, process)
    {
      this.taskName := taskName;
      this.coroutineName := coroutineName;
      status := Ready;
      currentPosition := 0;
      this.process := process.statements;
    }

    constructor FromValue(t: TaskValue)
      ensures Value() == t
    {
      taskName := t.taskName;
      coroutineName := t.coroutineName;
      status := t.cursor.status;
      currentPosition := t.cursor.position;
      process := t.process;
    }

    /** `step`. */
    method Step()
      modifies this
      ensures Value() == old(Value()).(cursor := Cursors.Step(old(Value()).cursor, |process|))
    {
      currentPosition := currentPosition + 1;
      if currentPosition >= |process| {
        status := Completed;
      }
    }
  }

  class TaskTable {
    var table: map<string, TaskValue>

    constructor()
      ensures table == map[]
    {
      table := map[];
    }

    /** `add_task`: a fresh task under `taskName`, replacing any previous one. */
    method AddTask(taskName: string, coroutineName: string, process: BlockNode)
      modifies this
      ensures table == old(table)[taskName := NewTask(taskName, coroutineName, process)]
    {
      var task := new CoroutineTask(taskName, coroutineName, process);
      table := table[taskName := task.Value()];
    }

    /** `set_task`: store the task's value under `taskName`. */
    method SetTask(taskName: string, task: CoroutineTask)
      modifies this
      ensures table == old(table)[taskName := task.Value()]
    {
      table := table[taskName := task.Value()];
    }

    /** `get_task`: a fresh copy of the stored task, or None. */
    method GetTask(taskName: string) returns (r: Option<CoroutineTask>)
      ensures taskName in table <==> r.Some?
      ensures r.Some? ==> fresh(r.value) && r.value.Value() == table[taskName]
    {
      if taskName in table {
        var task := new CoroutineTask.FromValue(table[taskName]);
        r := Some(task);
      } else {
        r := None;
      }
    }
  }

  /** `set_task` then `get_task` of the same name returns the task just set, and other
      names are unaffected. */
  method SetThenGet(t: TaskTable, name: string, task: CoroutineTask, other: string)
    returns (got: Option<CoroutineTask>)
    modifies t
    ensures got.Some? && got.value.Value() == old(task.Value())
    ensures other != name ==> (other in t.table <==> other in old(t.table))
    ensures other != name && other in t.table ==> t.table[other] == old(t.table[other])
  {
    t.SetTask(name, task);
    got := t.GetTask(name);
  }
}
