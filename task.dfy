/** The task entity: a description and a completion flag that `mark` and
    `unmark` change in place. The source has a base `Task` class and a `Todo`
    subclass that overrides the two renderings; here one class carries a
    constant `kind` and the renderings dispatch on it, calling the base
    rendering where the subclass calls `super`. */
module Tasks {
  import opened Results
  import Decimal

  datatype Kind = PlainTask | TodoTask

  /** The observable state of a task, as a value. */
  datatype TaskState = TaskState(kind: Kind, isComplete: bool, description: string)

  const TODO_TAG: string := "T | "
  const FIELD_SEPARATOR: string := " | "

  class Task {
    const kind: Kind
    var description: string
    var isComplete: bool

    /** The two-argument base constructor (package-private in the source). */
    constructor WithStatus(description: string, isComplete: bool)
      ensures kind == PlainTask
      ensures this.description == description && this.isComplete == isComplete
    {
      this.kind := PlainTask;
      this.description := description;
      this.isComplete := isComplete;
    }

    /** A new base task starts incomplete. */
    constructor (description: string)
      ensures kind == PlainTask
      ensures this.description == description && !isComplete
    {
      this.kind := PlainTask;
      this.description := description;
      this.isComplete := false;
    }

    constructor TodoWithStatus(description: string, isComplete: bool)
      ensures kind == TodoTask
      ensures this.description == description && this.isComplete == isComplete
    {
      this.kind := TodoTask;
      this.description := description;
      this.isComplete := isComplete;
    }

    /** A new todo starts incomplete. */
    constructor Todo(description: string)
      ensures kind == TodoTask
      ensures this.description == description && !isComplete
    {
      this.kind := TodoTask;
      this.description := description;
      this.isComplete := false;
    }

    function State(): (state: TaskState)
      reads this
    {
      TaskState(kind, isComplete, description)
    }

    method Mark()
      modifies this
      ensures isComplete
      ensures description == old(description)
      ensures |ToStorageFormat()| == |old(ToStorageFormat())|
      ensures forall i :: 0 <= i < |ToStorageFormat()| && i != StatusIndex(kind) ==>
        ToStorageFormat()[i] == old(ToStorageFormat())[i]
      ensures |ToString()| == |old(ToString())|
      ensures forall i :: 0 <= i < |ToString()| && i != IconIndex(kind) ==>
        ToString()[i] == old(ToString())[i]
    {
      isComplete := true;
      StorageLineDiffersOnlyInStatus(this);
      DisplayDiffersOnlyInStatus(this);
    }

    method Unmark()
      modifies this
      ensures !isComplete
      ensures description == old(description)
      ensures |ToStorageFormat()| == |old(ToStorageFormat())|
      ensures forall i :: 0 <= i < |ToStorageFormat()| && i != StatusIndex(kind) ==>
        ToStorageFormat()[i] == old(ToStorageFormat())[i]
      ensures |ToString()| == |old(ToString())|
      ensures forall i :: 0 <= i < |ToString()| && i != IconIndex(kind) ==>
        ToString()[i] == old(ToString())[i]
    {
      isComplete := false;
      StorageLineDiffersOnlyInStatus(this);
      DisplayDiffersOnlyInStatus(this);
    }

    /** Replaces the description; the source's task list calls this although
        the source's `Task` declares its description final (see README). */
    method SetDescription(newDescription: string)
      modifies this
      ensures description == newDescription
      ensures isComplete == old(isComplete)
    {
      description := newDescription;
    }

    function GetDescription(): (d: string)
      reads this
      ensures d == description
    {
      description
    }

    function StatusIcon(): (icon: string)
      reads this
      ensures |icon| == 3 && icon[0] == '[' && icon[2] == ']'
      ensures icon == "[X]" <==> isComplete
      ensures icon == "[ ]" <==> !isComplete
    {
      if isComplete then "[X]" else "[ ]"
    }

    function StatusNumber(): (n: int)
      reads this
      ensures n == 0 || n == 1
      ensures n == 1 <==> isComplete
    {
      if isComplete then 1 else 0
    }

    /** `Task.toStorageFormat`: the status number, the separator, the
        description. */
    function BaseStorageFormat(): (line: string)
      reads this
      ensures |line| == 4 + |description|
      ensures line[0] == (if isComplete then '1' else '0')
      ensures line[1..4] == FIELD_SEPARATOR
      ensures line[4..] == description
    {
      Decimal.IntToDecimal(StatusNumber()) + FIELD_SEPARATOR + description
    }

    /** The storage line, with the todo tag in front for a todo. */
    function ToStorageFormat(): (line: string)
      reads this
      ensures |line| == StatusIndex(kind) + 4 + |description|
      ensures line[..StatusIndex(kind)] == (if kind == TodoTask then TODO_TAG else "")
      ensures line[StatusIndex(kind)] == (if isComplete then '1' else '0')
      ensures line[StatusIndex(kind) + 1..StatusIndex(kind) + 4] == FIELD_SEPARATOR
      ensures line[StatusIndex(kind) + 4..] == description
    {
      match kind
      case PlainTask => BaseStorageFormat()
      case TodoTask => TODO_TAG + BaseStorageFormat()
    }

    /** `Task.toString`: the status icon, one space, the description. */
    function BaseToString(): (s: string)
      reads this
      ensures |s| == 4 + |description|
      ensures s[..3] == StatusIcon()
      ensures s[3] == ' '
      ensures s[4..] == description
    {
      StatusIcon() + " " + description
    }

    /** The display string, with "[T]" in front for a todo. */
    function ToString(): (s: string)
      reads this
      ensures |s| == IconIndex(kind) + 3 + |description|
      ensures kind == TodoTask ==> s[..3] == "[T]"
      ensures s[IconIndex(kind) - 1] == '['
      ensures s[IconIndex(kind)] == (if isComplete then 'X' else ' ')
      ensures s[IconIndex(kind) + 1..IconIndex(kind) + 3] == "] "
      ensures s[IconIndex(kind) + 3..] == description
    {
      match kind
      case PlainTask => BaseToString()
      case TodoTask => "[T]" + BaseToString()
    }
  }

  /** Where the status digit sits in a storage line. */
  function StatusIndex(kind: Kind): nat
  {
    if kind == TodoTask then |TODO_TAG| else 0
  }

  /** Where the status mark ('X' or ' ') sits in a display string. */
  function IconIndex(kind: Kind): nat
  {
    if kind == TodoTask then 4 else 1
  }

  /** Reads "<0|1> | <description>". */
  function DecodeStatusAndDescription(s: string): Option<(bool, string)>
  {
    if |s| >= 4 && (s[0] == '0' || s[0] == '1') && s[1..4] == FIELD_SEPARATOR
    then Some((s[0] == '1', s[4..]))
    else None
  }

  /** Reads a storage line back into the state it was written from: a line
      with the todo tag is a todo, a line starting with the status digit a
      base task, anything else is malformed. */
  function DecodeStorageLine(line: string): (decoded: Option<TaskState>)
  {
    if |line| >= |TODO_TAG| && line[..|TODO_TAG|] == TODO_TAG then
      match DecodeStatusAndDescription(line[|TODO_TAG|..])
      case None => None
      case Some(fields) => Some(TaskState(TodoTask, fields.0, fields.1))
    else
      match DecodeStatusAndDescription(line)
      case None => None
      case Some(fields) => Some(TaskState(PlainTask, fields.0, fields.1))
  }

  /** Decoding a task's storage line gives back its kind, flag and
      description. */
  lemma StorageRoundTrip(t: Task)
    ensures DecodeStorageLine(t.ToStorageFormat()) == Some(t.State())
  {
    var line := t.ToStorageFormat();
    if t.kind == TodoTask {
      assert line[|TODO_TAG|..] == t.BaseStorageFormat();
    } else {
      assert line[0] != 'T';
    }
  }

  /** Two tasks with the same storage line have the same state. */
  lemma StorageFormatInjective(a: Task, b: Task)
    ensures a.ToStorageFormat() == b.ToStorageFormat() ==> a.State() == b.State()
  {
    StorageRoundTrip(a);
    StorageRoundTrip(b);
  }

  /** A task whose description is the same as in the previous state (as
      after `mark` or `unmark`) has a storage line that differs from the
      previous one at the status digit alone. */
  twostate lemma StorageLineDiffersOnlyInStatus(t: Task)
    requires t.description == old(t.description)
    ensures |t.ToStorageFormat()| == |old(t.ToStorageFormat())|
    ensures forall i :: 0 <= i < |t.ToStorageFormat()| && i != StatusIndex(t.kind) ==>
      t.ToStorageFormat()[i] == old(t.ToStorageFormat())[i]
  {
    var la, lb, k := old(t.ToStorageFormat()), t.ToStorageFormat(), StatusIndex(t.kind);
    forall i | 0 <= i < |lb| && i != k
      ensures lb[i] == la[i]
    {
      if i < k {
        assert la[i] == la[..k][i] && lb[i] == lb[..k][i];
      } else if i < k + 4 {
        assert la[i] == la[k + 1..k + 4][i - k - 1] && lb[i] == lb[k + 1..k + 4][i - k - 1];
      } else {
        assert la[i] == la[k + 4..][i - k - 4] && lb[i] == lb[k + 4..][i - k - 4];
      }
    }
  }

  /** The same for the display string: only the status mark changes, and the
      "[T]" prefix and the description stay. */
  twostate lemma DisplayDiffersOnlyInStatus(t: Task)
    requires t.description == old(t.description)
    ensures |t.ToString()| == |old(t.ToString())|
    ensures forall i :: 0 <= i < |t.ToString()| && i != IconIndex(t.kind) ==>
      t.ToString()[i] == old(t.ToString())[i]
  {
    var sa, sb, k := old(t.ToString()), t.ToString(), IconIndex(t.kind);
    forall i | 0 <= i < |sb| && i != k
      ensures sb[i] == sa[i]
    {
      if i < k - 1 {
        assert t.kind == TodoTask;
        assert sa[i] == sa[..3][i] && sb[i] == sb[..3][i];
      } else if i == k - 1 {
      } else if i < k + 3 {
        assert sa[i] == sa[k + 1..k + 3][i - k - 1] && sb[i] == sb[k + 1..k + 3][i - k - 1];
      } else {
        assert sa[i] == sa[k + 3..][i - k - 3] && sb[i] == sb[k + 3..][i - k - 3];
      }
    }
  }
}
