/** The record store: whole-list reads and writes of the task file. JSON
    and the operating system are abstracted away: the file is one of three
    states, and every write is told whether, and how, the OS lets it fail. */
module Database {

  import opened ErrorCodes
  import opened Tasks

  /** What the file at the database path holds, as `read_Todos` can observe it. */
  datatype FileState =
    | Unreadable                  // opening for reading raises OSError (missing, no permission)
    | Undecodable                 // opens, but the content is empty or malformed JSON
    | Valid(tasks: seq<Task>)     // opens and decodes to this list of task records

  /** How a write behaves at the OS level. */
  datatype WriteFault =
    | NoFault                     // open('w') and json.dump both succeed
    | OpenFault                   // open('w') raises OSError: the file is untouched
    | MidWriteFault(leftAs: FileState)  // the file was opened (and truncated), then writing raised OSError

  /** The file at a path: the persisted state every handler on that path shares. */
  class DbFile {
    var contents: FileState

    constructor (contents: FileState)
      ensures this.contents == contents
    {
      this.contents := contents;
    }
  }

  /** The pair `DBResponse(todo_list, error)`. */
  datatype DBResponse = DBResponse(todoList: seq<Task>, error: ErrorCode)

  /** What `read_Todos` reports for a file state. */
  function ReadResult(s: FileState): (r: DBResponse)
    ensures r.error == Success <==> s.Valid?
    ensures r.error == DbReadError <==> s.Unreadable?
    ensures r.error == JsonError <==> s.Undecodable?
    ensures s.Valid? ==> r.todoList == s.tasks
    ensures r.error != Success ==> r.todoList == []
  {
    match s
    case Unreadable => DBResponse([], DbReadError)
    case Undecodable => DBResponse([], JsonError)
    case Valid(tasks) => DBResponse(tasks, Success)
  }

  /** The file state after writing `list` over `before`: exactly the list
      when the OS raises nothing, the old state when the open fails. */
  function AfterWrite(before: FileState, list: seq<Task>, fault: WriteFault): (after: FileState)
    ensures fault.NoFault? ==> ReadResult(after) == DBResponse(list, Success)
    ensures fault.OpenFault? ==> after == before
    ensures fault.MidWriteFault? ==> after == fault.leftAs
  {
    match fault
    case NoFault => Valid(list)
    case OpenFault => before
    case MidWriteFault(leftAs) => leftAs
  }

  /** The code a write returns. */
  function WriteError(fault: WriteFault): (e: ErrorCode)
    ensures e == Success || e == DbWriteError
    ensures e == Success <==> fault.NoFault?
  {
    if fault.NoFault? then Success else DbWriteError
  }

  class DBHandler {
    const dbPath: DbFile

    constructor (dbPath: DbFile)
      ensures this.dbPath == dbPath
    {
      this.dbPath := dbPath;
    }

    /** Reads the whole list. Opens the file read-only, so nothing changes;
        a failure never comes with partial data. */
    method ReadTodos() returns (r: DBResponse)
      ensures r == ReadResult(dbPath.contents)
    {
      r := ReadResult(dbPath.contents);
    }

    /** Overwrites the file with `todoList`. The response echoes the list it
        was given whether or not the write succeeded. */
    method WriteTodos(todoList: seq<Task>, fault: WriteFault) returns (r: DBResponse)
      modifies dbPath
      ensures r.todoList == todoList
      ensures r.error == WriteError(fault)
      ensures dbPath.contents == AfterWrite(old(dbPath.contents), todoList, fault)
      ensures fault.NoFault? ==> dbPath.contents == Valid(todoList)
      ensures fault.OpenFault? ==> unchanged(dbPath)
    {
      match fault
      case NoFault =>
        dbPath.contents := Valid(todoList);
        r := DBResponse(todoList, Success);
      case OpenFault =>
        r := DBResponse(todoList, DbWriteError);
      case MidWriteFault(leftAs) =>
        dbPath.contents := leftAs;
        r := DBResponse(todoList, DbWriteError);
    }
  }

  /** Creates the database: writes the empty list `[]` to the file. */
  method InitDatabase(dbPath: DbFile, fault: WriteFault) returns (code: ErrorCode)
    modifies dbPath
    ensures code == WriteError(fault)
    ensures dbPath.contents == AfterWrite(old(dbPath.contents), [], fault)
    ensures fault.NoFault? ==> ReadResult(dbPath.contents) == DBResponse([], Success)
  {
    match fault
    case NoFault =>
      dbPath.contents := Valid([]);
      code := Success;
    case OpenFault =>
      code := DbWriteError;
    case MidWriteFault(leftAs) =>
      dbPath.contents := leftAs;
      code := DbWriteError;
  }

  /** A fault-free write followed by a read gives back the written list. */
  lemma WriteReadRoundTrip(before: FileState, list: seq<Task>)
    ensures ReadResult(AfterWrite(before, list, NoFault)) == DBResponse(list, Success)
  {
  }
}
