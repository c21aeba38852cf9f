/** The task list: an ordered, mutable sequence of tasks addressed by
    zero-based index. Tasks are shared objects: `GetTask` hands out the very
    object the list holds, and marking, unmarking or updating a task changes
    that object, so the change shows wherever else it is referenced. */
module TaskLists {
  import opened Results
  import opened JavaInt
  import opened Tasks
  import Decimal

  /** The one-based index users see for zero-based `index`, computed as
      `index + 1` in Java `int` arithmetic: the largest `int` wraps to the
      smallest. */
  function ConvertZeroToOneIndex(index: int32): (oneBased: int32)
    ensures index as int < MAX_INT ==> oneBased as int == index as int + 1
    ensures index as int == MAX_INT ==> oneBased as int == MIN_INT
  {
    if index as int == MAX_INT then MIN_INT as int32 else index + 1
  }

  /** Wrap-around never merges two indices: the conversion is a bijection on
      `int`. */
  lemma ConvertZeroToOneIndexInjective(i: int32, j: int32)
    ensures ConvertZeroToOneIndex(i) == ConvertZeroToOneIndex(j) ==> i == j
  {
  }

  const INDEX_PREFIX: string := "Index "
  const SIZE_PREFIX: string := " out of bounds. There are only "
  const TASKS_SUFFIX: string := " tasks"

  /** The out-of-range message format "Index %d out of bounds. There are
      only %d tasks" with its two fields already rendered. */
  function FormatOutOfBounds(indexText: string, sizeText: string): (msg: string)
  {
    "Index " + indexText + " out of bounds. There are only " + sizeText + " tasks"
  }

  /** Where each part of a filled-in message sits. */
  lemma FormatOutOfBoundsLayout(indexText: string, sizeText: string)
    ensures |FormatOutOfBounds(indexText, sizeText)| == 43 + |indexText| + |sizeText|
    ensures FormatOutOfBounds(indexText, sizeText)[..6] == "Index "
    ensures FormatOutOfBounds(indexText, sizeText)[6..6 + |indexText|] == indexText
    ensures FormatOutOfBounds(indexText, sizeText)[6 + |indexText|..37 + |indexText|]
      == " out of bounds. There are only "
    ensures FormatOutOfBounds(indexText, sizeText)[37 + |indexText|..37 + |indexText| + |sizeText|]
      == sizeText
    ensures FormatOutOfBounds(indexText, sizeText)[37 + |indexText| + |sizeText|..] == " tasks"
  {
    var msg := FormatOutOfBounds(indexText, sizeText);
    var i, n := |indexText|, |sizeText|;
    assert msg == INDEX_PREFIX + indexText + SIZE_PREFIX + sizeText + TASKS_SUFFIX;
    assert msg[..6] == INDEX_PREFIX;
    assert msg[6..6 + i] == indexText;
    assert msg[6 + i..37 + i] == SIZE_PREFIX;
    assert msg[37 + i..37 + i + n] == sizeText;
    assert msg[37 + i + n..] == TASKS_SUFFIX;
  }

  /** The error message of every out-of-range access: the format filled with
      `index + 1` (in `int` arithmetic) and the current size. */
  function OutOfBoundsMessage(index: int32, size: nat): (msg: string)
    ensures index as int < MAX_INT ==>
      msg == FormatOutOfBounds(Decimal.IntToDecimal(index as int + 1), Decimal.IntToDecimal(size))
    ensures index as int == MAX_INT ==>
      msg == FormatOutOfBounds(Decimal.IntToDecimal(MIN_INT), Decimal.IntToDecimal(size))
  {
    FormatOutOfBounds(Decimal.IntToDecimal(ConvertZeroToOneIndex(index) as int), Decimal.IntToDecimal(size))
  }

  predicate NoSpace(s: string)
  {
    forall i :: 0 <= i < |s| ==> s[i] != ' '
  }

  lemma CharAfterShorterPrefix(a: string, x: string, b: string, y: string)
    requires |a| < |b| && |x| >= 1 && a + x == b + y
    ensures b[|a|] == x[0]
  {
    assert b[|a|] == (b + y)[|a|];
  }

  /** If a ++ x == b ++ y where neither a nor b contains a space and both x and
      y start with one, then the split is at the same place. */
  lemma SplitAtFirstSpace(a: string, x: string, b: string, y: string)
    requires NoSpace(a) && NoSpace(b)
    requires |x| >= 1 && x[0] == ' ' && |y| >= 1 && y[0] == ' '
    requires a + x == b + y
    ensures a == b && x == y
  {
    if |a| < |b| {
      CharAfterShorterPrefix(a, x, b, y);
      assert false;
    } else if |b| < |a| {
      CharAfterShorterPrefix(b, y, a, x);
      assert false;
    }
    assert a == (a + x)[..|a|] && b == (b + y)[..|b|];
    assert x == (a + x)[|a|..] && y == (b + y)[|b|..];
  }

  /** A filled-in message determines both of its fields when neither contains
      a space. */
  lemma FormatOutOfBoundsInjective(a: string, c: string, b: string, d: string)
    requires NoSpace(a) && NoSpace(b)
    ensures FormatOutOfBounds(a, c) == FormatOutOfBounds(b, d) ==> a == b && c == d
  {
    if FormatOutOfBounds(a, c) == FormatOutOfBounds(b, d) {
      var x, y := SIZE_PREFIX + c + TASKS_SUFFIX, SIZE_PREFIX + d + TASKS_SUFFIX;
      FormatAfterPrefix(a, c);
      FormatAfterPrefix(b, d);
      SplitAtFirstSpace(a, x, b, y);
      assert c == x[|SIZE_PREFIX|..|x| - |TASKS_SUFFIX|];
      assert d == y[|SIZE_PREFIX|..|y| - |TASKS_SUFFIX|];
    }
  }

  /** What follows "Index " in a filled-in message. */
  lemma FormatAfterPrefix(a: string, c: string)
    ensures FormatOutOfBounds(a, c)[|INDEX_PREFIX|..] == a + (SIZE_PREFIX + c + TASKS_SUFFIX)
  {
    var x := SIZE_PREFIX + c + TASKS_SUFFIX;
    assert FormatOutOfBounds(a, c) == INDEX_PREFIX + (a + x);
  }

  lemma DecimalHasNoSpace(n: int)
    ensures NoSpace(Decimal.IntToDecimal(n))
  {
    var s := Decimal.IntToDecimal(n);
    forall i | 0 <= i < |s| ensures s[i] != ' ' {
      assert s[i] == '-' || Decimal.IsDigit(s[i]);
    }
  }

  /** The message identifies both the requested index and the size it was
      checked against. */
  lemma OutOfBoundsMessageInjective(i: int32, n: nat, j: int32, m: nat)
    ensures OutOfBoundsMessage(i, n) == OutOfBoundsMessage(j, m) ==> i == j && n == m
  {
    var oneBasedI, oneBasedJ := ConvertZeroToOneIndex(i) as int, ConvertZeroToOneIndex(j) as int;
    DecimalHasNoSpace(oneBasedI);
    DecimalHasNoSpace(oneBasedJ);
    FormatOutOfBoundsInjective(Decimal.IntToDecimal(oneBasedI), Decimal.IntToDecimal(n),
                               Decimal.IntToDecimal(oneBasedJ), Decimal.IntToDecimal(m));
    Decimal.IntToDecimalInjective(oneBasedI, oneBasedJ);
    Decimal.IntToDecimalInjective(n, m);
    ConvertZeroToOneIndexInjective(i, j);
  }

  /** `String.contains`: `query` occurs in `text` at some position. */
  predicate Contains(text: string, query: string): (found: bool)
    ensures query == [] ==> found
    ensures |query| > |text| ==> !found
    ensures query <= text ==> found
  {
    assert query <= text ==> OccursAt(text, query, 0);
    exists k :: 0 <= k <= |text| - |query| && OccursAt(text, query, k)
  }

  predicate OccursAt(text: string, query: string, k: int)
  {
    0 <= k <= |text| - |query| && text[k..k + |query|] == query
  }

  /** `a` is `b` with some elements left out, the rest in their order. */
  predicate IsSubsequence<T(==)>(a: seq<T>, b: seq<T>)
  {
    if a == [] then true
    else if b == [] then false
    else if a[0] == b[0] then IsSubsequence(a[1..], b[1..])
    else IsSubsequence(a, b[1..])
  }

  /** The tasks whose description contains `query`, in list order: each
      matching task is kept as often as it occurs, every other one dropped. */
  function Filter(tasks: seq<Task>, query: string): (r: seq<Task>)
    reads tasks
    ensures IsSubsequence(r, tasks)
    ensures forall t :: t in r ==> t in tasks
    ensures forall t :: t in tasks ==>
      multiset(r)[t] == (if Contains(t.description, query) then multiset(tasks)[t] else 0)
  {
    if tasks == [] then []
    else
      var rest := Filter(tasks[1..], query);
      assert tasks == [tasks[0]] + tasks[1..];
      if Contains(tasks[0].description, query) then [tasks[0]] + rest else rest
  }

  /** An empty query is contained in every description. */
  lemma {:induction false} FilterEmptyQuery(tasks: seq<Task>)
    ensures Filter(tasks, "") == tasks
  {
    if tasks != [] {
      FilterEmptyQuery(tasks[1..]);
    }
  }

  /** No match gives the empty sequence, not an error. */
  lemma {:induction false} FilterNoMatch(tasks: seq<Task>, query: string)
    requires forall k :: 0 <= k < |tasks| ==> !Contains(tasks[k].description, query)
    ensures Filter(tasks, query) == []
  {
    if tasks != [] {
      FilterNoMatch(tasks[1..], query);
    }
  }

  class TaskList {
    var logs: seq<Task>

    /** Copies the given tasks, in order. */
    constructor (tasks: seq<Task>)
      ensures logs == tasks
    {
      logs := tasks;
    }

    constructor Empty()
      ensures logs == []
    {
      logs := [];
    }

    predicate InRange(index: int32)
      reads this
    {
      0 <= index as int < |logs|
    }

    function Size(): (n: nat)
      reads this
      ensures n == |logs|
    {
      |logs|
    }

    /** Appends `task` and returns it. */
    method Add(task: Task) returns (added: Task)
      modifies this
      ensures logs == old(logs) + [task]
      ensures added == task
    {
      logs := logs + [task];
      added := task;
    }

    /** Removes and returns the task at `index`; the later tasks move down
        one place. */
    method Delete(index: int32) returns (r: Result<Task>)
      modifies this
      ensures old(InRange(index)) ==>
        r == Ok(old(logs)[index]) && logs == old(logs)[..index] + old(logs)[index as int + 1..]
      ensures !old(InRange(index)) ==>
        r == Err(OutOfBoundsMessage(index, |logs|)) && logs == old(logs)
    {
      if InRange(index) {
        r := Ok(logs[index]);
        logs := logs[..index] + logs[index as int + 1..];
      } else {
        r := Err(OutOfBoundsMessage(index, |logs|));
      }
    }

    function GetTask(index: int32): (r: Result<Task>)
      reads this
      ensures r.Ok? <==> InRange(index)
      ensures r.Ok? ==> r.value == logs[index]
      ensures r.Err? ==> r.message == OutOfBoundsMessage(index, |logs|)
    {
      if InRange(index) then Ok(logs[index]) else Err(OutOfBoundsMessage(index, |logs|))
    }

    /** Marks the task at `index` complete and returns it. */
    method MarkTask(index: int32) returns (r: Result<Task>)
      modifies if InRange(index) then {logs[index]} else {}
      ensures logs == old(logs)
      ensures InRange(index) ==>
        r == Ok(logs[index]) && logs[index].isComplete
        && logs[index].description == old(logs[index].description)
      ensures !InRange(index) ==> r == Err(OutOfBoundsMessage(index, |logs|))
      ensures forall t :: t in logs && (!InRange(index) || t != logs[index]) ==> unchanged(t)
    {
      var found := GetTask(index);
      match found
      case Err(message) =>
        r := Err(message);
      case Ok(task) =>
        task.Mark();
        r := GetTask(index);
    }

    /** Marks the task at `index` incomplete and returns it. */
    method UnmarkTask(index: int32) returns (r: Result<Task>)
      modifies if InRange(index) then {logs[index]} else {}
      ensures logs == old(logs)
      ensures InRange(index) ==>
        r == Ok(logs[index]) && !logs[index].isComplete
        && logs[index].description == old(logs[index].description)
      ensures !InRange(index) ==> r == Err(OutOfBoundsMessage(index, |logs|))
      ensures forall t :: t in logs && (!InRange(index) || t != logs[index]) ==> unchanged(t)
    {
      var found := GetTask(index);
      match found
      case Err(message) =>
        r := Err(message);
      case Ok(task) =>
        task.Unmark();
        r := GetTask(index);
    }

    /** Replaces the description of the task at `index` and returns it. */
    method UpdateTask(index: int32, updatedDescription: string) returns (r: Result<Task>)
      modifies if InRange(index) then {logs[index]} else {}
      ensures logs == old(logs)
      ensures InRange(index) ==>
        r == Ok(logs[index]) && logs[index].description == updatedDescription
        && logs[index].isComplete == old(logs[index].isComplete)
      ensures !InRange(index) ==> r == Err(OutOfBoundsMessage(index, |logs|))
      ensures forall t :: t in logs && (!InRange(index) || t != logs[index]) ==> unchanged(t)
    {
      var found := GetTask(index);
      match found
      case Err(message) =>
        r := Err(message);
      case Ok(task) =>
        task.SetDescription(updatedDescription);
        r := GetTask(index);
    }

    /** The tasks in current order. */
    function GetTasks(): (tasks: seq<Task>)
      reads this
      ensures tasks == logs
    {
      logs
    }

    /** The tasks whose description contains `query`, in list order. */
    function Find(query: string): (found: seq<Task>)
      reads this, logs
      ensures IsSubsequence(found, logs)
      ensures forall t :: t in found ==> t in logs && Contains(t.description, query)
      ensures forall t :: t in logs && Contains(t.description, query) ==>
        multiset(found)[t] == multiset(logs)[t]
    {
      Filter(logs, query)
    }
  }
}
