/** Clients of the model that walk through the system's documented
    interactions and show what a caller can conclude from the contracts
    alone. */
module Scenarios {
  import opened Results
  import opened JavaInt
  import opened Tasks
  import opened TaskLists
  import opened Commands
  import Decimal

  /** "todo Buy milk" on an empty list: one task listed, one line stored. */
  method AddBuyMilk() returns (list: TaskList, milk: Task)
  {
    list := new TaskList.Empty();
    var storage := new Storage([], None);
    milk := new Task.Todo("Buy milk");
    var add := new AddCommand(milk);
    assert !add.isExit;

    var added := add.Execute(list, storage);
    assert added == Ok(AddReport(milk, 1));
    assert list.Size() == 1 && storage.saved == [milk];
    assert milk.ToStorageFormat() == "T | 0 | Buy milk";
    assert milk.ToString() == "[T][ ] Buy milk";
  }

  /** "mark 1" on that list changes the display string and the storage line. */
  method MarkBuyMilk() {
    var milk := new Task.Todo("Buy milk");
    var list := new TaskList([milk]);
    var marked := list.MarkTask(0);
    assert marked == Ok(milk) && milk.isComplete;
    assert milk.ToString() == "[T][X] Buy milk";
    assert milk.ToStorageFormat() == "T | 1 | Buy milk";
  }

  /** Index 4 on a one-task list reports the one-based index 5 and the size
      1 ... */
  lemma FifthOfOneFields()
    ensures OutOfBoundsMessage(4, 1) == FormatOutOfBounds("5", "1")
  {
    assert Decimal.IntToDecimal(5) == "5" && Decimal.IntToDecimal(1) == "1";
  }

  lemma FifthOfOneText()
    ensures FormatOutOfBounds("5", "1") == "Index 5 out of bounds. There are only 1 tasks"
  {
  }

  /** ... which reads "Index 5 out of bounds. There are only 1 tasks". */
  lemma FifthOfOneMessage()
    ensures OutOfBoundsMessage(4, 1) == "Index 5 out of bounds. There are only 1 tasks"
  {
    FifthOfOneFields();
    FifthOfOneText();
  }

  /** "delete 5" on a one-task list fails and leaves the list alone. */
  method DeleteFifthOfOne() {
    var milk := new Task.Todo("Buy milk");
    var list := new TaskList([milk]);
    var deleted := list.Delete(4);
    FifthOfOneMessage();
    assert deleted == Err("Index 5 out of bounds. There are only 1 tasks");
    assert list.Size() == 1;
  }

  /** Marking and then unmarking the same index leaves the flag false,
      whatever it was before. */
  method MarkThenUnmark(list: TaskList, index: int32) returns (r: Result<Task>)
    modifies if list.InRange(index) then {list.logs[index]} else {}
    ensures list.logs == old(list.logs)
    ensures list.InRange(index) ==> r == Ok(list.logs[index]) && !list.logs[index].isComplete
    ensures !list.InRange(index) ==> r == Err(OutOfBoundsMessage(index, |list.logs|))
  {
    var _ := list.MarkTask(index);
    r := list.UnmarkTask(index);
  }

  /** A save that fails leaves the added task in the list. */
  method AddWithFailingStorage(list: TaskList, task: Task)
    modifies list
  {
    var storage := new Storage([], Some("Unable to write to storage file"));
    var before := |list.logs|;
    var add := new AddCommand(task);
    var r := add.Execute(list, storage);
    assert r.Err? && storage.saved == [];
    assert |list.logs| == before + 1 && list.logs[before] == task;
  }
}
