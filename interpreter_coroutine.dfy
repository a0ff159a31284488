/** src/interpreter/coroutine.rs: coroutine tasks as flat cursors over a block's
    statements, and the manager that keeps coroutine definitions and named tasks. */
module InterpreterCoroutines {
  import opened Wrappers
  import opened ErrorContexts
  import opened Cursors
  import opened NodeTree

  /** `Runtime019`, the code this file reports, is not declared by
      src/error/error_code.rs; it is given its own type here. */
  datatype CoroutineErrorCode = Runtime019

  type CoroutineError = ErrorContext<CoroutineErrorCode>

  function UnknownCoroutine(name: string): CoroutineError {
    ErrorContext(Runtime019, None, None, [("coroutine", name)])
  }

  /** The value a `CoroutineTask` holds; the manager stores tasks by value (a task is
      cloned out by `get_task` and moved in by `set_task`). */
  datatype TaskRecord = TaskRecord(taskName: string, cursor: Cursor, process: seq<PrivateNode>)

  /** The task `CoroutineTask::new` builds from a Block node. */
  function NewTask(taskName: string, block: PrivateNode): (t: TaskRecord)
    requires block.Block?
    ensures t.taskName == taskName && t.cursor == Fresh && t.process == block.statements
  {
    TaskRecord(taskName, Fresh, block.statements)
  }

  class CoroutineTask {
    var taskName: string
    var status: Status
    var currentPosition: nat
    var process: seq<PrivateNode>

    function Record(): TaskRecord
      reads this
    {
      TaskRecord(taskName, Cursor(status, currentPosition), process)
    }

    /** `CoroutineTask::new`; a node other than a Block panics in the source, so a Block
        is required. */
    constructor(taskName: string, block: PrivateNode)
      requires block.Block?
      ensures Record() == NewTask(taskName, block)
    {
      this.taskName := taskName;
      status := Ready;
      currentPosition := 0;
      process := block.statements;
    }

    /** A task rebuilt from a stored value (the `clone` in `get_task`). */
    constructor FromRecord(t: TaskRecord)
      ensures Record() == t
    {
      taskName := t.taskName;
      status := t.cursor.status;
      currentPosition := t.cursor.position;
      process := t.process;
    }

    /** `step`. */
    method Step()
      modifies this
      ensures Record() == old(Record()).(cursor := Cursors.Step(old(Record()).cursor, |process|))
    {
      currentPosition := currentPosition + 1;
      if currentPosition >= |process| {
        status := Completed;
      }
    }
  }

  class CoroutineManager {
    var coroutineDefs: map<string, PrivateNode>
    var coroutineTasks: map<string, TaskRecord>

    constructor()
      ensures coroutineDefs == map[] && coroutineTasks == map[]
    {
      coroutineDefs := map[];
      coroutineTasks := map[];
    }

    /** `add_def`: insert or overwrite one definition. */
    method AddDef(coroutineName: string, process: PrivateNode)
      modifies this
      ensures coroutineDefs == old(coroutineDefs)[coroutineName := process]
      ensures coroutineTasks == old(coroutineTasks)
    {
      coroutineDefs := coroutineDefs[coroutineName := process];
    }

    /** `add_task`: a defined coroutine gives a fresh Ready task stored under
        `taskName` (replacing any task of that name); an undefined one fails Runtime019
        and changes nothing. A defined body that is not a Block panics in the source, so
        definitions are required to be Blocks. */
    method AddTask(taskName: string, coroutineName: string) returns (r: Result<(), CoroutineError>)
      requires coroutineName in coroutineDefs ==> coroutineDefs[coroutineName].Block?
      modifies this
      ensures coroutineDefs == old(coroutineDefs)
      ensures coroutineName in coroutineDefs ==>
        r == Ok(()) &&
        coroutineTasks == old(coroutineTasks)[taskName := NewTask(taskName, coroutineDefs[coroutineName])]
      ensures coroutineName !in coroutineDefs ==>
        r == Err(UnknownCoroutine(coroutineName)) && coroutineTasks == old(coroutineTasks)
    {
      if coroutineName in coroutineDefs {
        var task := new CoroutineTask(taskName, coroutineDefs[coroutineName]);
        coroutineTasks := coroutineTasks[taskName := task.Record()];
        r := Ok(());
      } else {
        r := Err(UnknownCoroutine(coroutineName));
      }
    }

    /** `get_task`: a fresh copy of the stored task, or Runtime019. */
    method GetTask(taskName: string) returns (r: Result<CoroutineTask, CoroutineError>)
      ensures taskName in coroutineTasks ==>
        r.Ok? && fresh(r.value) && r.value.Record() == coroutineTasks[taskName]
      ensures taskName !in coroutineTasks ==> r == Err(UnknownCoroutine(taskName))
    {
      if taskName in coroutineTasks {
        var task := new CoroutineTask.FromRecord(coroutineTasks[taskName]);
        r := Ok(task);
      } else {
        r := Err(UnknownCoroutine(taskName));
      }
    }

    /** `set_task`: store the task's current value under `taskName`. */
    method SetTask(taskName: string, task: CoroutineTask)
      modifies this
      ensures coroutineTasks == old(coroutineTasks)[taskName := task.Record()]
      ensures coroutineDefs == old(coroutineDefs)
    {
      coroutineTasks := coroutineTasks[taskName := task.Record()];
    }
  }

  /** `set_task` followed by `get_task` of the same name gives back a task equal to the
      one set. */
  method SetThenGet(m: CoroutineManager, name: string, task: CoroutineTask)
    returns (got: CoroutineTask)
    modifies m
    ensures fresh(got) && got.Record() == old(task.Record())
  {
    m.SetTask(name, task);
    var r := m.GetTask(name);
    got := r.value;
  }
}
