# Task store of the `todo` command-line app

This project models the persistence and task-mutation layer of a small
command-line to-do tracker, written in Dafny, and proves properties of it.

- **Record store** (`todo/database.py`). `DBHandler` reads and writes the
  whole task list to one file and turns OS and JSON-decode failures into
  error codes. `init_database` writes the empty list.
- **Task manager** (`todo/todo.py`). `Todoer` runs read-modify-write
  cycles over the store:
  - `add` builds a task, appends it and writes the list back;
  - `get_Todo_list` only reads;
  - `set_Done` marks the task at a 1-based position as done and writes the list back.
- **Error codes** (`todo/__init__.py`). There are seven, bound to the
  integers 0..6. `SUCCESS` is 0, so only success is falsy in a Python truth
  test.

## Files

- `wrappers.dfy`: `Option`. `None` is the `{}` placeholder the manager returns when it has no task.
- `error_codes.dfy`: the seven codes, their integers, and the truth test.
- `tasks.dfy`: `Task` (the `Description`/`Priority`/`Done` record) and the description normalisation. `Join` is checked against an independent `Split`.
- `database.py` → `database.dfy`: the file as an abstract state and `DBHandler`/`init_database` as imperative code.
  - The file at the database path is a `DbFile` object with a mutable `contents` field.
  - `contents` is `Unreadable`, `Undecodable` or `Valid(tasks)`.
  - `DBHandler` keeps a reference to it, as the source keeps `_db_path`.
  - Several handlers on one path therefore share one file, like separate command-line invocations.
  - Every write takes a `WriteFault` that says whether, and how, the OS makes it fail.
- `todo.dfy`: `Todoer`. Its methods' postconditions tie the new file state and the returned pair to the old file state.
- `scenarios.dfy`: sequences of calls on one file. They cover the round trips, two adds, a corrupt file, and completion by position.

Behaviour of the program that the model keeps as written:

- `set_Done` indexes with Python semantics, `list[id - 1]` (todo/todo.py:74). The `complete` command puts no lower bound on the id (todo/cli.py:160).
  - Every `id` with `1 - n <= id <= n` succeeds.
  - `id = 0` completes the last task, and negative ids count from the end.
  - Only ids outside that range give `ID_ERROR`.
- `set_Done` returns on any read error, including `JSON_ERROR` (its test is `if read.error:`).
- `add` goes on after `JSON_ERROR` and overwrites the undecodable file with a one-task list.
- `add` is annotated `-> None`, but it returns the `(task, error)` pair. The model returns that pair.
- `add`'s default priority is 2 (todo/todo.py:31). `Todoer.Add` keeps that default.

## Model

| member | source | states |
|---|---|---|
| `ErrorCodes.Code` | todo/__init__.py:10-18 | every code is one of the integers 0..6, and 0 belongs to `SUCCESS` alone (so `if error:` means "any failure") |
| `ErrorCodes.FromCode` | todo/__init__.py:10-18 | an integer names a code exactly when it is in 0..6 |
| `ErrorCodes.CodeRoundTrip` | todo/__init__.py:10-18 | code → integer → code is the identity, and so is integer → code → integer on 0..6 |
| `ErrorCodes.CodeInjective` | todo/__init__.py:10-18 | distinct codes have distinct integers, so every failure kind can be told apart |
| `ErrorCodes.IsFailure` | todo/todo.py:69 | the truth test `if read.error:` holds exactly for the codes other than `SUCCESS` |
| `Tasks.Join` | todo/todo.py:34 | `' '.join(words)`: the empty list joins to `""`, and otherwise the text starts with the first word and ends with the last |
| `Tasks.NormaliseDescription` | todo/todo.py:34-37 | the stored description always ends in `'.'`; it is the space-joined words when they already end in `'.'`, and otherwise those words plus `'.'` |
| `Tasks.SplitJoin` | todo/todo.py:34 | joining a non-empty list of space-free words with single spaces loses nothing: splitting on spaces gives the words back |
| `Tasks.NormaliseKeepsWords` | todo/todo.py:34-37 | the normalised text begins with the joined words and adds at most one character |
| `Tasks.NormaliseIdempotent` | todo/todo.py:34-37 | normalising an already normalised description leaves it unchanged |
| `Database.ReadResult` | todo/database.py:34-47 | a read succeeds exactly on a decodable file and then returns its list unchanged; an unopenable file gives `DB_READ_ERROR`, an undecodable one `JSON_ERROR`; on every error the list is empty, never partial |
| `Database.AfterWrite` | todo/database.py:52-60 | the file after a write: when the OS raises nothing, it reads back as exactly the written list with `SUCCESS`; when the open fails, it is untouched; when writing fails after the open, it is left in the state the fault names |
| `Database.WriteError` | todo/database.py:50-60 | a write reports `SUCCESS` exactly when the OS raises nothing, and `DB_WRITE_ERROR` otherwise |
| `Database.DBHandler.constructor` | todo/database.py:30-31 | the handler refers to the given database file |
| `Database.DBHandler.ReadTodos` | todo/database.py:34-47 | returns `ReadResult` of the current file state; it has no `modifies` clause, so the persisted state cannot change |
| `Database.DBHandler.WriteTodos` | todo/database.py:50-60 | always echoes the given list; when fault-free, the file afterwards holds exactly that list and the code is `SUCCESS`; on a failed open the file is untouched; on a failure after opening, the code is `DB_WRITE_ERROR` and the file's state is left open |
| `Database.InitDatabase` | todo/database.py:72-79 | when fault-free, it returns `SUCCESS` and a later read yields `[]` with `SUCCESS`; when the OS fails, it returns `DB_WRITE_ERROR` |
| `Database.WriteReadRoundTrip` | todo/database.py:34-56 | reading the state left by a fault-free write of `L` gives `L` with `SUCCESS` |
| `Todo.ListIndex` | todo/todo.py:73-77 | Python indexing on a list of length n: index i selects a position exactly when `-n <= i < n`; a non-negative index selects itself and a negative one selects `n + i` |
| `Todo.MarkDone` | todo/todo.py:74-80 | only the selected task changes; its `Done` becomes true, its description and priority stay, and the length is kept |
| `Todo.NegativeIdAliases` | todo/todo.py:74 | ids `id` and `id - n` complete the same task, so `0` names the last one |
| `Todo.Todoer.constructor` | todo/todo.py:27-28 | the manager's handler works on the given database file |
| `Todo.Todoer.Add` | todo/todo.py:31-53 | always returns the new task (normalised description, given priority with default 2, not done). If the file cannot be read, it returns `DB_READ_ERROR` and leaves the file unchanged. If the file is undecodable, it writes a one-task list. Otherwise it writes the old list plus the task and returns the write's code. When fault-free, the earlier tasks keep their order and values and the length grows by one |
| `Todo.Todoer.GetTodoList` | todo/todo.py:56-60 | returns the stored list when the file is decodable and `[]` on any read error; it has no `modifies` clause, so it never writes |
| `Todo.Todoer.SetDone` | todo/todo.py:63-84 | on any read error, returns no task and the read's code, without writing. For `1 <= id <= n`, it writes the list with task `id-1` marked done and returns that task with the write's code. For `1-n <= id <= 0`, it does the same for task `n+id-1`. For any other id, it returns no task and `ID_ERROR`, without writing |
| `Scenarios.WriteThenRead` | todo/database.py:34-56 | a fault-free `write_Todos(L)` then `read_Todos()` returns `L` with `SUCCESS`, from any starting file |
| `Scenarios.InitThenRead` | todo/database.py:72-79 | after a successful `init_database`, any earlier content is gone and a read gives `[]` with `SUCCESS` |
| `Scenarios.AddTwice` | todo/todo.py:45-53 | two adds on a fresh database, each through its own `Todoer`, list exactly the two tasks in call order |
| `Scenarios.AddOverCorruptFile` | todo/todo.py:45-60 | an undecodable file lists as empty, and the next add replaces its content with the single new task |
| `Scenarios.AddDefaultPriority` | todo/todo.py:31-53 | an add without a priority returns and appends a task with priority 2 |
| `Scenarios.CompleteOnTwoTasks` | todo/todo.py:66-84 | on two tasks, id 1 (and -1) completes only the first and id 2 (and 0) only the second; ids above 2 or below -1 give `ID_ERROR` and the list is unchanged |

## Left out

- `remove` and `remove_all`: the command-line layer calls them, but `Todoer` in `todo/todo.py` defines neither, so there is nothing to model.
- JSON encoding and decoding, and the OS file calls:
  - the file is an abstract state, and a write takes its OS outcome as a parameter;
  - valid JSON that is not a list of task records is not represented. A non-list makes `add` fail when it appends. A list whose items are not records, such as `[1, 2]`, is appended to and written back by `add`, and then makes `set_Done` raise an uncaught `TypeError`;
  - neither is a non-UTF-8 file, whose decode error `read_Todos` does not catch.
- The file state after a write that fails once the file is open: the program does not determine it. `WriteFault.MidWriteFault` lets the caller choose any state.
- Object identity of task dictionaries: `set_Done` mutates the dictionary in place and returns that same dictionary. The model uses values. The returned task equals the written element, which is all a caller can observe.
- `get_database_path`, `DEFAULT_DB_PATH` and the configuration module: path discovery and INI reading. The model takes an already resolved file.
- The `ERRORS` message table and all command-line output: display text only.
- Concurrent invocations racing on one file (lost updates): the app assumes one invocation at a time.
