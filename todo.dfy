/** The task manager: each operation is one read-modify-write cycle over the
    record store (or a read alone, for the listing). */
module Todo {

  import opened Wrappers
  import opened ErrorCodes
  import opened Tasks
  import opened Database

  /** The pair `CurrentTodo(todo, error)`; `None` is the empty `{}` placeholder. */
  datatype CurrentTodo = CurrentTodo(todo: Option<Task>, error: ErrorCode)

  /** Python list indexing `list[i]` on a list of length `n`: the position it
      selects, or None where it raises IndexError. Negative indices count
      from the end. */
  function ListIndex(n: nat, i: int): (k: Option<nat>)
    ensures k.Some? <==> 0 <= n + i && i < n
    ensures k.Some? ==> k.value < n
    ensures 0 <= i < n ==> k == Some(i)
    ensures i < 0 <= n + i ==> k == Some(n + i)
  {
    if 0 <= i < n then Some(i)
    else if i < 0 <= n + i then Some(n + i)
    else None
  }

  /** The list with the task at position `k` marked done. */
  function MarkDone(tasks: seq<Task>, k: nat): (r: seq<Task>)
    requires k < |tasks|
    ensures |r| == |tasks|
    ensures r[k].done
    ensures r[k].description == tasks[k].description && r[k].priority == tasks[k].priority
    ensures forall j :: 0 <= j < |tasks| && j != k ==> r[j] == tasks[j]
  {
    tasks[k := tasks[k].(done := true)]
  }

  class Todoer {
    const dbHandler: DBHandler

    constructor (dbPath: DbFile)
      ensures dbHandler.dbPath == dbPath
    {
      dbHandler := new DBHandler(dbPath);
    }

    /** The state of the file this manager works on. */
    function File(): FileState
      reads dbHandler.dbPath
    {
      dbHandler.dbPath.contents
    }

    /** Adds a task built from the description words and the priority (2 when
        not given). */
    method Add(description: seq<string>, priority: int := 2, fault: WriteFault := NoFault) returns (r: CurrentTodo)
      modifies dbHandler.dbPath
      ensures r.todo == Some(Task(NormaliseDescription(description), priority, false))
      ensures old(File()).Unreadable? ==> r.error == DbReadError && File() == old(File())
      ensures old(File()).Undecodable? ==>
        r.error == WriteError(fault) && File() == AfterWrite(old(File()), [r.todo.value], fault)
      ensures old(File()).Valid? ==>
        r.error == WriteError(fault) && File() == AfterWrite(old(File()), old(File()).tasks + [r.todo.value], fault)
      ensures old(File()).Valid? && fault.NoFault? ==>
        File().Valid? && |File().tasks| == |old(File()).tasks| + 1 &&
        File().tasks[..|old(File()).tasks|] == old(File()).tasks &&
        File().tasks[|old(File()).tasks|] == r.todo.value
    {
      var task := Task(NormaliseDescription(description), priority, false);
      var read := dbHandler.ReadTodos();
      if read.error == DbReadError {
        return CurrentTodo(Some(task), read.error);
      }
      var list := read.todoList + [task];
      var write := dbHandler.WriteTodos(list, fault);
      r := CurrentTodo(Some(task), write.error);
      assert list[..|read.todoList|] == read.todoList;
    }

    /** The current list; every read error is swallowed as the empty list. */
    method GetTodoList() returns (list: seq<Task>)
      ensures list == ReadResult(File()).todoList
      ensures File().Valid? ==> list == File().tasks
      ensures !File().Valid? ==> list == []
    {
      var read := dbHandler.ReadTodos();
      list := read.todoList;
    }

    /** Marks the task at 1-based position `id` as done. The position is a
        Python index `id - 1`, so ids from `1 - n` to `0` count from the end. */
    method SetDone(id: int, fault: WriteFault) returns (r: CurrentTodo)
      modifies dbHandler.dbPath
      ensures !old(File()).Valid? ==>
        r == CurrentTodo(None, ReadResult(old(File())).error) && File() == old(File())
      ensures old(File()).Valid? && 1 <= id <= |old(File()).tasks| ==>
        var tasks := old(File()).tasks;
        r == CurrentTodo(Some(tasks[id - 1].(done := true)), WriteError(fault)) &&
        File() == AfterWrite(old(File()), MarkDone(tasks, id - 1), fault)
      ensures old(File()).Valid? && 1 - |old(File()).tasks| <= id <= 0 ==>
        var tasks := old(File()).tasks;
        var k := |tasks| + id - 1;
        r == CurrentTodo(Some(tasks[k].(done := true)), WriteError(fault)) &&
        File() == AfterWrite(old(File()), MarkDone(tasks, k), fault)
      ensures old(File()).Valid? && (id > |old(File()).tasks| || id < 1 - |old(File()).tasks|) ==>
        r == CurrentTodo(None, IdError) && File() == old(File())
    {
      var read := dbHandler.ReadTodos();
      if IsFailure(read.error) {
        return CurrentTodo(None, read.error);
      }
      match ListIndex(|read.todoList|, id - 1)
      case None =>
        r := CurrentTodo(None, IdError);
      case Some(k) =>
        var list := MarkDone(read.todoList, k);
        var write := dbHandler.WriteTodos(list, fault);
        r := CurrentTodo(Some(list[k]), write.error);
    }
  }

  /** Ids `id` and `id - n` name the same task: the id 0 is the last task. */
  lemma NegativeIdAliases(n: nat, id: int)
    requires 1 <= id <= n
    ensures ListIndex(n, id - 1) == ListIndex(n, id - 1 - n) == Some(id - 1)
  {
  }
}
