# Task store model

A Dafny model of the data layer of a desktop task manager: the `Task` record
(`models/task.py`) and the `DataModel` store (`models/data_model.py`) that keeps
an ordered list of tasks, hands out ids, persists the whole list to a JSON file
after every change and announces changes through two signals.

- `python.dfy` (module `Python`): the Python behaviour the core relies on. JSON
  scalars (`Scalar`), `int()`, `str()` and `bool()` on them, `str.strip()`, and
  list indexing with negative indices (`ListPosition`).
- `task.dfy` (module `TaskEntity`): `Task` as a datatype. `NewTask` is the
  dataclass constructor, with the clock reading passed in as `now`. `ToDict` and
  `FromDict` convert to and from a `Record`, a map from key to `Scalar`.
- `data_model.dfy` (module `TaskStore`): the file (`Disk`, a parsed `Json`
  document), the pure functions the store is specified by (`Load`, `Snapshot`,
  `RemoveAt`, `ToggleAt`), and the class `DataModel`. Its fields are `tasks`,
  `nextId`, `data`, an `events` log standing in for `tasks_changed` and
  `data_changed`, and a ghost `stored` holding the file's last content. Every
  method that calls `_save` takes a ghost `saveOk` that says whether the write
  succeeds. A failed write is swallowed and leaves `stored` as it was.

The invariant `Valid` holds from construction on and is kept by every method:
every task has a creation time, and every id is below `nextId`. So each new id
is larger than every id present. `nextId` never decreases, so no id comes back
within a session. Ids need not be unique: a loaded file may repeat an id, and
the code does not check.

Behaviour of the code worth knowing:

- The task record has only `id`, `title`, `completed` and `created_at`.
  `add_task` with a dict payload builds `Task(..., description=..., deadline=...,
  priority=...)` (`models/data_model.py:90`). For any payload whose title is not
  blank, that call raises `TypeError` before anything has changed.
  `DataModel.AddTask` returns `Raised(TypeError)` and leaves the state unchanged.
  The dialog of the user interface always sends a payload, so adding from the UI
  never succeeds. Only a bare title adds a task.
- `from_dict` can fail. `int()` rejects `None` and non-numeric strings. During
  `_load` such a failure, or a list element that is not a dict, empties the
  whole list; it does not default the one field.
- The next id is not persisted. `_load` recomputes it as the largest id plus
  one. After `clear_tasks` and a restart, ids start again at 1, so ids can be
  reused across restarts (`ReloadNextId`). When every id on file is negative,
  the next id in memory is below 1, and a clear followed by a restart raises it
  to 1 (`NegativeIdsReload`).
- `int()` on a string skips surrounding whitespace, but not the ASCII
  separators U+001C..U+001F, which `str.strip()` does remove. A stored id such
  as `"\u001c5"` is therefore rejected and empties the list on load
  (`SeparatorNotSkipped`).
- Indices follow Python: `-n <= i < n` is valid, and a negative index counts
  from the end.

`FreshStoreSession` walks through one session on a fresh path. A bare title
gets id 1, a payload raises, a toggle marks the task done, and reading the file
back gives the same list.

## Model

| member | source | states |
|---|---|---|
| `Python.TrimStart` | models/data_model.py:92 | the result is the suffix left after removing leading whitespace only: it is all whitespace before it, and it does not start with whitespace |
| `Python.TrimEnd` | models/data_model.py:92 | the result is the prefix left after removing trailing whitespace only: it is all whitespace after it, and it does not end with whitespace |
| `Python.Strip` | models/data_model.py:92 | `strip()` yields the slice of the input between its leading whitespace (what `TrimStart` removes) and its trailing whitespace; it is empty exactly when the input is all whitespace, and otherwise neither end of it is whitespace |
| `Python.StripKeepsTrimmed` | models/data_model.py:84 | a string with no whitespace at either end is left unchanged by `strip()` |
| `Python.NatToDigits` | models/task.py:25 | decimal digits only, with no leading zero |
| `Python.IntToString` | models/task.py:25 | `str(int)` is non-empty and has no surrounding whitespace |
| `Python.ParseDigits` | models/task.py:24 | an accepted numeral starts and ends with a digit and holds only digits and underscores |
| `Python.TrimmedIntPadded` | models/task.py:24 | a string with no whitespace at either end is its own strip and carries no padding `int()` would refuse |
| `Python.ParseDecimal` | models/task.py:24 | `int(s)` on a string accepts exactly when the whitespace around `s` holds no U+001C..U+001F separator and the stripped text is a digits-and-underscores numeral, optionally after one `+` or `-`; a negative result comes from a leading `-`, and an unsigned numeral gives its own value |
| `Python.DigitsRoundTrip` | models/task.py:24-25 | reading the digits of `n` gives back `n` |
| `Python.DecimalRoundTrip` | models/task.py:24-25 | `int(str(n)) == n` at the string level, for negative `n` as well |
| `Python.PyInt` | models/task.py:24 | `int()` raises exactly for `None` (TypeError) and for a string that `ParseDecimal` rejects (ValueError); an int is kept |
| `Python.PyStr` | models/task.py:25 | `str()` never fails; it keeps a string and gives `"None"` for None |
| `Python.PyBool` | models/task.py:26 | `bool()` keeps a bool and is false for None |
| `Python.IntStrRoundTrip` | models/task.py:24-25 | an id written as a string by `str` is read back to the same int by `int` |
| `Python.SeparatorNotSkipped` | models/task.py:24 | `"\u001c5"` strips to `"5"`, yet `int()` rejects it with ValueError |
| `Python.ListPosition` | models/data_model.py:138 | `xs[i]` is defined exactly for `-n <= i < n`; a non-negative index is itself, a negative one counts from the end |
| `TaskEntity.Get` | models/task.py:24-27 | `d.get(key, default)` gives the stored value for a present key and the default for a missing one |
| `TaskEntity.NewTask` | models/task.py:6-16 | a constructed task always has a creation time; a supplied one is kept, a missing one becomes the current time; the other fields are as given |
| `TaskEntity.Create` | models/data_model.py:95 | `Task(id=..., title=...)` is not completed and is stamped with the clock |
| `TaskEntity.ToDict` | models/task.py:18-19 | exactly the keys `id`, `title`, `completed` and `created_at`, each holding the task's own value |
| `TaskEntity.FromDict` | models/task.py:21-28 | it fails only when `id` is present and `int()` rejects it, with that error; a missing id, title or completed gives 0, "" or false; a missing or null `created_at` gets the clock, a present one is kept |
| `TaskEntity.DictRoundTrip` | models/task.py:18-28 | `from_dict(to_dict(t)) == t` for every task with a creation time, whatever the clock says |
| `TaskEntity.NumeralIdAccepted` | models/task.py:24 | a record whose id is a numeral string is accepted with that number as id |
| `TaskStore.Serialize` | models/data_model.py:62 | one dict per task, in order, each being that task's `to_dict()` |
| `TaskStore.Snapshot` | models/data_model.py:58-62 | the saved file is a JSON list with one dict per task |
| `TaskStore.DecodeAll` | models/data_model.py:45 | a successful decode has one task per element, each the `from_dict` of a dict element; a failure names an element that is not a dict or whose conversion fails |
| `TaskStore.MaxId` | models/data_model.py:47 | `max(ids, default=0)`: 0 for no tasks, otherwise an id present that bounds all ids |
| `TaskStore.Load` | models/data_model.py:38-56 | a file that holds a decodable list gives those tasks, with a next id one above an id present; an absent, unreadable, non-list or undecodable file gives no tasks and next id 1; either way the next id exceeds every id |
| `TaskStore.DecodeSerialized` | models/data_model.py:45-62 | decoding the list `_save` writes gives back the tasks |
| `TaskStore.SaveLoadRoundTrip` | models/data_model.py:38-62 | loading what `_save` wrote restores the same tasks in the same order, with next id `max + 1` |
| `TaskStore.ReloadNextId` | models/data_model.py:47-48 | reloading a non-empty list never raises the next id above the one in memory; reloading an empty list (after a clear) restarts it at 1 |
| `TaskStore.NegativeIdsReload` | models/data_model.py:44-48 | a file `[{"id": -3}]` loads with next id -2, while reloading the cleared list gives 1: with negative ids a restart after a clear raises the next id |
| `TaskStore.RemoveAt` | models/data_model.py:118 | `pop(k)` removes exactly the element at `k`: one shorter, the others kept in order, same multiset less that element |
| `TaskStore.ToggleAt` | models/data_model.py:128-129 | only the `completed` flag of the task at `k` is negated; every other task and field is unchanged |
| `TaskStore.ToggleTwice` | models/data_model.py:125-134 | toggling the same position twice gives back the original list |
| `TaskStore.InputTitle` | models/data_model.py:84-92 | the title `add_task` uses is blank exactly when `str()` of the given title (or of the payload's `title`, default `''`) is all whitespace; a payload without `title` gives a blank title; a non-blank title has no whitespace at either end |
| `TaskStore.TrimmedTitleKept` | models/data_model.py:82-95 | a title with no surrounding whitespace is used as it is, in the bare form and in the payload form |
| `TaskStore.DataModel.constructor` | models/data_model.py:22-56 | the state after construction is `Load` of the file found, with empty `data` and no signals; with no file, an empty list is written if the write succeeds |
| `TaskStore.DataModel.Save` | models/data_model.py:58-65 | the file holds `[to_dict(t) for t in tasks]` after a successful write and is unchanged after a failed one |
| `TaskStore.DataModel.SetData` | models/data_model.py:72-76 | `data` becomes the value; `data_changed(value)` is emitted only when the value differs from the old one |
| `TaskStore.DataModel.AddTask` | models/data_model.py:79-100 | a blank title returns None and a payload with a real title raises TypeError, both with nothing changed; a bare title appends one uncompleted task with the old next id and the stripped title, advances the id by one, keeps earlier tasks, saves and signals once; the new id exceeds every earlier id |
| `TaskStore.DataModel.Append` | models/data_model.py:96-99 | the id advances by one, the task is appended at the end, the list is saved and `tasks_changed` is emitted once |
| `TaskStore.DataModel.GetTasks` | models/data_model.py:102-104 | a copy holding the same tasks in the same order |
| `TaskStore.DataModel.GetTaskCount` | models/data_model.py:106-107 | the number of tasks in `get_tasks()` |
| `TaskStore.DataModel.ClearTasks` | models/data_model.py:109-113 | the list becomes empty, the next id is kept, an empty list is saved and `tasks_changed` is emitted |
| `TaskStore.DataModel.RemoveTaskByIndex` | models/data_model.py:115-123 | answers true exactly for `-n <= i < n`; then removes the task at the Python position, keeps the rest in order, saves and signals; otherwise nothing changes |
| `TaskStore.DataModel.ToggleTaskCompleted` | models/data_model.py:125-134 | on a valid Python index it negates only that task's flag, saves, signals and returns the updated task; on any other index it returns None and nothing changes |
| `TaskStore.DataModel.GetTask` | models/data_model.py:136-140 | the task at a valid Python index (counting from the end when negative), None otherwise |
| `TaskStore.ToggleTwiceRestores` | models/data_model.py:125-134 | two toggles of one index give back the list; the first returns the negated flag and the second the original task |

## Left out

- File I/O and JSON text are abstracted into `Disk`. `Unreadable` stands for every failure to open or parse the file. A write that fails partway and leaves a truncated file is not modelled: a failed `_save` leaves the file as it was.
- Choosing the default storage path (`models/data_model.py:28-33`) is operating-system path handling.
- The clock is a parameter `now`. `_load` stamps every record that lacks `created_at` with the same reading; Python reads the clock once per record.
- Qt signals become the `events` log. Connecting and dispatching to slots belongs to Qt.
- Only JSON scalars (None, bool, int, str) are modelled as field values and as `add_task` arguments. Floats, and arrays or objects nested inside a task record, are not.
- `Python.ParseDecimal` accepts ASCII digits only. It does not model `int()` accepting other Unicode decimal digits, nor the interpreter's 4300-digit limit on int/str conversion.
- `Python.IsSpace` fixes the whitespace set of `str.isspace()` for the Unicode version in use.
- `TaskStore.DataModel.ToggleTaskCompleted` and `TaskStore.DataModel.GetTask` return task values. Python returns the stored object itself, and `get_tasks` returns a shallow copy, so a caller holding a task sees later changes and can change the stored task; that aliasing is not modelled.
- Index arguments are ints. A non-int index, which Python turns into False or None through the same `except`, is not modelled.
- Views, controllers, `main.py`, `utils/logging_qt.py` and the test scripts are not part of this model. They are user interface, signal wiring, logging and ad-hoc scripts.
