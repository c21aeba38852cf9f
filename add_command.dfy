/** The command that adds a task. In the source, every command reaches the
    task list and the storage through process-wide static bindings; here both
    are passed to `Execute` explicitly. */
module Commands {
  import opened Results
  import opened Tasks
  import opened TaskLists

  /** The persistence medium, seen only through what it has been asked to
      save. `fault` stands for the medium's I/O behaviour: when it holds a
      message, every save fails with that message and writes nothing. */
  class Storage {
    var saved: seq<Task>
    const fault: Option<string>

    constructor (initial: seq<Task>, fault: Option<string>)
      ensures saved == initial && this.fault == fault
    {
      saved := initial;
      this.fault := fault;
    }

    /** Appends one task to what is stored. */
    method Save(task: Task) returns (r: Outcome)
      modifies this
      ensures fault.None? ==> r == Pass && saved == old(saved) + [task]
      ensures fault.Some? ==> r == Fail(fault.value) && saved == old(saved)
    {
      match fault
      case None =>
        saved := saved + [task];
        r := Pass;
      case Some(message) =>
        r := Fail(message);
    }
  }

  /** What the confirmation message is built from: the added task and the
      number of tasks after the addition. */
  datatype AddReport = AddReport(task: Task, count: nat)

  class AddCommand {
    const isExit: bool
    const task: Task

    constructor (task: Task)
      ensures !isExit && this.task == task
    {
      isExit := false;
      this.task := task;
    }

    /** Appends the task to the list, then saves it. The list is changed
        first and stays changed when saving fails. */
    method Execute(taskList: TaskList, storage: Storage) returns (r: Result<AddReport>)
      modifies taskList, storage
      ensures taskList.logs == old(taskList.logs) + [task]
      ensures storage.fault.None? ==>
        storage.saved == old(storage.saved) + [task]
        && r == Ok(AddReport(task, old(|taskList.logs|) + 1))
      ensures storage.fault.Some? ==>
        storage.saved == old(storage.saved) && r == Err(storage.fault.value)
    {
      var initialTaskListSize := taskList.Size();
      var _ := taskList.Add(task);
      var saveResult := storage.Save(task);
      if saveResult.Fail? {
        return Err(saveResult.message);
      }
      var finalTaskListSize := taskList.Size();
      assert finalTaskListSize - initialTaskListSize == 1;
      r := Ok(AddReport(task, taskList.Size()));
    }
  }
}
