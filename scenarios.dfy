/** Sequences of operations on one database file, each on fresh objects the
    way separate command-line invocations create them: what a caller sees
    across several calls. */
module Scenarios {

  import opened Wrappers
  import opened ErrorCodes
  import opened Tasks
  import opened Database
  import opened Todo

  /** A fault-free write followed by a read gives back the written list. */
  method WriteThenRead(initial: FileState, list: seq<Task>) returns (written: DBResponse, read: DBResponse)
    ensures written == DBResponse(list, Success)
    ensures read == DBResponse(list, Success)
  {
    var dbPath := new DbFile(initial);
    var handler := new DBHandler(dbPath);
    written := handler.WriteTodos(list, NoFault);
    read := handler.ReadTodos();
  }

  /** A successful initialisation leaves a database that reads as empty,
      whatever the file held before. */
  method InitThenRead(initial: FileState) returns (code: ErrorCode, read: DBResponse)
    ensures code == Success
    ensures read == DBResponse([], Success)
  {
    var dbPath := new DbFile(initial);
    code := InitDatabase(dbPath, NoFault);
    var handler := new DBHandler(dbPath);
    read := handler.ReadTodos();
  }

  /** Two adds on a freshly initialised database list the two tasks in call order. */
  method AddTwice(first: seq<string>, p1: int, second: seq<string>, p2: int)
    returns (r1: CurrentTodo, r2: CurrentTodo, list: seq<Task>)
    ensures r1.error == Success && r2.error == Success
    ensures list == [Task(NormaliseDescription(first), p1, false), Task(NormaliseDescription(second), p2, false)]
  {
    var dbPath := new DbFile(Unreadable);
    var _ := InitDatabase(dbPath, NoFault);
    var todoer := new Todoer(dbPath);
    r1 := todoer.Add(first, p1, NoFault);
    todoer := new Todoer(dbPath);
    r2 := todoer.Add(second, p2, NoFault);
    todoer := new Todoer(dbPath);
    list := todoer.GetTodoList();
  }

  /** An undecodable file lists as empty, and the next add silently replaces
      its content with the single new task. */
  method AddOverCorruptFile(description: seq<string>, priority: int)
    returns (before: seq<Task>, r: CurrentTodo, after: seq<Task>)
    ensures before == []
    ensures r.error == Success
    ensures after == [Task(NormaliseDescription(description), priority, false)]
  {
    var dbPath := new DbFile(Undecodable);
    var todoer := new Todoer(dbPath);
    before := todoer.GetTodoList();
    r := todoer.Add(description, priority, NoFault);
    after := todoer.GetTodoList();
  }

  /** Without an explicit priority, `add` stores priority 2. */
  method AddDefaultPriority(initial: seq<Task>, description: seq<string>) returns (r: CurrentTodo, after: seq<Task>)
    ensures r == CurrentTodo(Some(Task(NormaliseDescription(description), 2, false)), Success)
    ensures after == initial + [Task(NormaliseDescription(description), 2, false)]
  {
    var dbPath := new DbFile(Valid(initial));
    var todoer := new Todoer(dbPath);
    r := todoer.Add(description);
    after := todoer.GetTodoList();
  }

  /** On a two-task list, completing id 1 marks only the first task; id 0
      marks the last one; ids 3 and -2 are rejected and nothing is written. */
  method CompleteOnTwoTasks(t1: Task, t2: Task, id: int) returns (r: CurrentTodo, list: seq<Task>)
    ensures id == 1 ==> r == CurrentTodo(Some(t1.(done := true)), Success) && list == [t1.(done := true), t2]
    ensures id == 0 || id == 2 ==> r == CurrentTodo(Some(t2.(done := true)), Success) && list == [t1, t2.(done := true)]
    ensures id == -1 ==> r == CurrentTodo(Some(t1.(done := true)), Success) && list == [t1.(done := true), t2]
    ensures (id > 2 || id < -1) ==> r == CurrentTodo(None, IdError) && list == [t1, t2]
  {
    var dbPath := new DbFile(Valid([t1, t2]));
    var todoer := new Todoer(dbPath);
    r := todoer.SetDone(id, NoFault);
    list := todoer.GetTodoList();
  }
}
