# Duke task list — a Dafny model

This project models the core of Duke, a text-command task manager. The core has three parts:

- **The task entity.** A `Task` has a description and a completion flag that `mark` and `unmark` change in place. The `Todo` variant adds a type tag. A task has a deterministic storage line (`"T | 0 | Buy milk"`) and a display string (`"[T][ ] Buy milk"`).
- **The task list.** This is an ordered, mutable sequence of shared task objects, addressed by zero-based index. It supports add, delete (later tasks shift down), get, mark, unmark, update and a substring search. Every out-of-range access fails with `"Index <i+1> out of bounds. There are only <size> tasks"`.
- **The add command.** It appends its task to the task list, then saves the task to storage.

Modules:

- `Results` (`results.dfy`): `Option`, `Result` and `Outcome`. The application's single exception kind, which carries a message, becomes an `Err`/`Fail` value.
- `JavaInt` (`java_int.dfy`): Java's 32-bit `int`.
- `Decimal` (`decimal.dfy`): `%d`-style rendering of integers. Its partner is a digit-string reader, and the two are connected by a round-trip lemma.
- `Tasks` (`task.dfy`): the `Task` class. It covers the base task and the `Todo` variant through a constant `kind`, its renderings, and a storage-line decoder with round-trip and "only the status changes" lemmas.
- `TaskLists` (`task_list.dfy`): the `TaskList` class, the one-based index with Java's `int` wrap-around, the out-of-bounds message (proved injective), and the order-preserving filter behind `find`.
- `Commands` (`add_command.dfy`): `AddCommand`, and the `Storage` it saves to. The storage is seen only as the sequence of tasks saved so far, as the source's test stub sees it. The task list and the storage are passed to `Execute` explicitly; the source binds them in static fields.
- `Scenarios` (`scenarios.dfy`): clients that walk through three documented interactions using only the contracts:
  - `todo Buy milk`, then `mark 1`, then `delete 5` on a one-task list;
  - mark followed by unmark leaves the flag false;
  - a failed save leaves the added task in the list.

## Deviations from the code

- The code never checks that a description is non-empty, so any string is accepted here.
- The code's `TaskList.updateTask` calls `setDescription` on a task, but `Task` declares its description `final` and has no such method. To model `updateTask`, `Task.SetDescription` is added and the description is a mutable field.
- The one-based index in the error message is computed in Java `int` arithmetic. For index 2147483647 it wraps to -2147483648, and `ConvertZeroToOneIndex` models exactly that.

## Model

| member | source | states |
|---|---|---|
| Decimal.NatToDecimal | src/main/java/duke/TaskList.java:154 | a natural number renders as a non-empty string of decimal digits, one digit exactly when it is below 10, with no leading zero |
| Decimal.IntToDecimal | src/main/java/duke/TaskList.java:154 | a signed integer renders non-empty; it starts with '-' exactly when it is negative; a non-negative number renders as digits only, a negative one as '-' followed by digits only; there is no leading zero |
| Decimal.NatToDecimalRoundTrip | src/main/java/duke/TaskList.java:154 | reading the rendered digits back gives the number |
| Decimal.IntToDecimalRoundTrip | src/main/java/duke/TaskList.java:154 | reading back the digits of a signed rendering gives the number when it is non-negative, and its magnitude (the digits after the '-') when it is negative |
| Decimal.IntToDecimalInjective | src/main/java/duke/TaskList.java:154 | distinct integers render to distinct strings |
| Tasks.Task.WithStatus | src/main/java/duke/task/Task.java:15-18 | the two-argument constructor stores exactly the given description and flag |
| Tasks.Task.constructor | src/main/java/duke/task/Task.java:20-22 | a task built from a description alone starts incomplete |
| Tasks.Task.TodoWithStatus | src/main/java/duke/task/Todo.java:13-15 | `Todo(d, c)` is a todo with description `d` and completion `c` |
| Tasks.Task.Todo | src/main/java/duke/task/Todo.java:22-24 | `Todo(d)` is an incomplete todo with description `d` |
| Tasks.Task.Mark | src/main/java/duke/task/Task.java:24-26 | afterwards the task is complete, whatever it was before (so marking is idempotent); the description is untouched; the storage line and the display string keep their length and change at most at the status digit and the status mark |
| Tasks.Task.Unmark | src/main/java/duke/task/Task.java:28-30 | afterwards the task is incomplete, whatever it was before; the description is untouched; the storage line and the display string change at most at the status digit and the status mark |
| Tasks.Task.SetDescription | src/main/java/duke/TaskList.java:125 | the description becomes the given text; the flag is untouched |
| Tasks.Task.GetDescription | src/main/java/duke/task/Task.java:32-34 | returns the current description |
| Tasks.Task.StatusIcon | src/main/java/duke/task/Task.java:36-38 | the icon is "[X]" iff the task is complete and "[ ]" iff it is not |
| Tasks.Task.StatusNumber | src/main/java/duke/task/Task.java:40-42 | the number is 0 or 1, and 1 iff the task is complete |
| Tasks.Task.BaseStorageFormat | src/main/java/duke/task/Task.java:44-46 | the line is the status digit ('1' iff complete), then the field separator (space, vertical bar, space), then the description verbatim |
| Tasks.Task.ToStorageFormat | src/main/java/duke/task/Todo.java:27-29 | a todo's line is the tag "T" and the field separator (positions 0–3), then the status digit at position 4, then the separator at 5–7, then the description from 8 on; a base task's line has no tag |
| Tasks.Task.BaseToString | src/main/java/duke/task/Task.java:56-59 | the display string is the status icon, one space, then the description |
| Tasks.Task.ToString | src/main/java/duke/task/Todo.java:31-34 | a todo displays as "[T]", then the icon with its mark at position 4, then a space, then the description |
| Tasks.StorageRoundTrip | src/main/java/duke/task/Todo.java:27-29 | decoding a task's storage line gives back its kind, flag and description |
| Tasks.StorageFormatInjective | src/main/java/duke/task/Task.java:44-46 | two tasks with the same storage line have the same kind, flag and description |
| Tasks.StorageLineDiffersOnlyInStatus | src/main/java/duke/task/Todo.java:27-29 | for one task across two states with the same description (before and after mark/unmark), the storage lines have equal length and differ only at the status digit |
| Tasks.DisplayDiffersOnlyInStatus | src/main/java/duke/task/Todo.java:31-34 | the same for the display string: only the icon's mark differs, and the "[T]" prefix and description stay |
| TaskLists.ConvertZeroToOneIndex | src/main/java/duke/TaskList.java:157-159 | `index + 1` in Java `int`: one more below the maximum; the maximum wraps to the minimum |
| TaskLists.ConvertZeroToOneIndexInjective | src/main/java/duke/TaskList.java:157-159 | the wrapped conversion never maps two indices to the same one-based index |
| TaskLists.FormatOutOfBoundsLayout | src/main/java/duke/TaskList.java:13 | a filled-in message is "Index ", the index text, " out of bounds. There are only ", the size text, " tasks", each at its fixed position, with nothing else |
| TaskLists.OutOfBoundsMessage | src/main/java/duke/TaskList.java:153-155 | the format filled with the decimal rendering of index + 1 (the minimum `int` when the index is the maximum) and of the current size |
| TaskLists.FormatOutOfBoundsInjective | src/main/java/duke/TaskList.java:13 | when the index field has no space, the filled-in format determines both of its fields |
| TaskLists.OutOfBoundsMessageInjective | src/main/java/duke/TaskList.java:153-155 | the out-of-bounds message determines both the requested index and the size it was checked against |
| TaskLists.Contains | src/main/java/duke/TaskList.java:149 | `String.contains`: the query occurs at some position of the text; so an empty query or a prefix is always contained, and a query longer than the text never is |
| TaskLists.Filter | src/main/java/duke/TaskList.java:147-151 | the result is an order-preserving subsequence of the tasks; each task whose description contains the query keeps all its occurrences, and every other task is dropped |
| TaskLists.FilterEmptyQuery | src/main/java/duke/TaskList.java:147-151 | an empty query returns every task, in order |
| TaskLists.FilterNoMatch | src/main/java/duke/TaskList.java:147-151 | when no description contains the query, the result is empty (not an error) |
| TaskLists.TaskList.constructor | src/main/java/duke/TaskList.java:22-24 | the new list holds the given tasks, in order |
| TaskLists.TaskList.Empty | src/main/java/duke/TaskList.java:29-31 | the new list is empty |
| TaskLists.TaskList.Size | src/main/java/duke/TaskList.java:38-40 | the number of tasks held |
| TaskLists.TaskList.Add | src/main/java/duke/TaskList.java:48-51 | the task is appended at the end and returned; earlier tasks are unchanged |
| TaskLists.TaskList.Delete | src/main/java/duke/TaskList.java:60-66 | in range: returns the task that was at the index, and the list is the old list with that position removed; out of range: fails with the out-of-bounds message and leaves the list unchanged |
| TaskLists.TaskList.GetTask | src/main/java/duke/TaskList.java:75-81 | succeeds iff the index is in range and then returns the task there; otherwise fails with the out-of-bounds message |
| TaskLists.TaskList.MarkTask | src/main/java/duke/TaskList.java:90-97 | in range: the task there becomes complete and is returned; its description, the order and every other task object are unchanged; out of range: the out-of-bounds error, and nothing changes |
| TaskLists.TaskList.UnmarkTask | src/main/java/duke/TaskList.java:106-113 | in range: the task there becomes incomplete and is returned, with everything else unchanged; out of range: the out-of-bounds error, and nothing changes |
| TaskLists.TaskList.UpdateTask | src/main/java/duke/TaskList.java:123-130 | in range: the task there gets the new description and keeps its flag, and is returned; order, size and other tasks are unchanged; out of range: the out-of-bounds error, and nothing changes |
| TaskLists.TaskList.GetTasks | src/main/java/duke/TaskList.java:138-140 | the tasks in current order |
| TaskLists.TaskList.Find | src/main/java/duke/TaskList.java:147-151 | an order-preserving subsequence of the list holding every occurrence of each task whose description contains the query, and nothing else; the list is not modified |
| Commands.Storage.constructor | src/test/java/duke/command/CommandTest.java:21 | storage starts with the given saved tasks |
| Commands.Storage.Save | src/main/java/duke/command/AddCommand.java:32 | on a working medium the task is appended once to what is saved; on a failing one the call fails with the medium's message and nothing is saved |
| Commands.AddCommand.constructor | src/main/java/duke/command/AddCommand.java:18-21 | a new add command is not an exit command and holds its task |
| Commands.AddCommand.Execute | src/main/java/duke/command/AddCommand.java:28-37 | the task is appended to the list (size grows by exactly one; earlier tasks unchanged) even when saving fails; on success it is also saved once, and the result carries the task and the old size + 1; on failure the save error is returned |
| Scenarios.MarkThenUnmark | src/main/java/duke/TaskList.java:90-113 | marking and then unmarking the same index leaves that task incomplete, whatever its flag was, and returns it; out of range both fail with the out-of-bounds message; the order is unchanged |
| Scenarios.FifthOfOneMessage | src/main/java/duke/TaskList.java:13 | index 4 on a one-task list gives "Index 5 out of bounds. There are only 1 tasks" |

## Left out

- `Task.parseDate` and the unused `DATE_FORMAT` constant are left out. They wrap `java.time` date parsing, and only date-bearing task variants use them; those variants are not part of this model.
- `TaskList.toString` is left out, because it depends on Java's `List.toString` rendering of task objects.
- TaskLists.TaskList.GetTasks: the source returns its internal list itself, so a caller can mutate the task list through it. The model returns the sequence's value, so this aliasing is not captured.
- TaskLists.TaskList.Size: the list's length is unbounded here. A Java `ArrayList` cannot hold more than 2^31-1 elements, and that limit is not modelled.
- Commands.AddCommand.Execute: the result is the pair (task, count) that the confirmation message is built from. The message text comes from `Ui.getAddTaskMessage`, and `Ui` is not part of this model.
- Commands.Storage.Save: the file-backed `Storage` class is not part of this model, so `Save` models only appending and the failure path. Whether `fault` holds a message stands for the I/O outcome, and that outcome is a parameter. The full-rewrite operation used by other commands is not modelled.
- The Java `assert` in `AddCommand.execute` runs only when assertions are enabled. Here it is a verified `assert`.
- `Duke`, `Main`, `Parser`, `Ui`, `ListCommand`, the other commands and the static collaborator bindings in `Command` are not part of this model. The same goes for the startup fallback to an empty list when loading fails.
- Tasks are compared by object identity, as in Java. `String.format` locales with non-ASCII digits are not modelled.
- Java strings are sequences of UTF-16 code units; here a string is a sequence of Unicode scalar values. For text outside the Basic Multilingual Plane (emoji, for example), `String.contains` and every position and length in the storage and display contracts count differently. A description holding an unpaired surrogate cannot be represented at all.
- Null is not modelled: `Task`, its description and the query are non-null here. In Java, `add(null)` succeeds on the `ArrayList`. After that, `markTask`, `unmarkTask` and `updateTask` on the null entry throw `NullPointerException`, as does `find` on any list holding it and `find(null)`; the model rules these cases out by its types.
