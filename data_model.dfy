/**
 The task store: an ordered list of tasks, the next id to hand out, a transient
 input string, the file the list is persisted to and the two change signals.
 */
module TaskStore {
  import opened Python
  import opened TaskEntity

  /** A JSON document as far as the store reads it: a scalar, an array, or an
      object whose values are scalars. */
  datatype Json = Atom(v: Scalar) | Array(items: seq<Json>) | Object(fields: Record)

  /** The backing file: absent, present but unreadable (I/O error or text that
      is not JSON), or present with a parsed document. */
  datatype Disk = NoFile | Unreadable | File(content: Json)

  /** One emission of a signal: `tasks_changed()` or `data_changed(value)`. */
  datatype Event = TasksChanged | DataChanged(value: string)

  /** What `add_task` is called with: a bare title value or a dict payload. */
  datatype TaskInput = Plain(title: Scalar) | Payload(fields: Record)

  /** What `add_task` does: return the new task, return None, or raise. */
  datatype AddOutcome = Added(task: Task) | NotAdded | Raised(error: PyError)

  /** The in-memory state `_load` leaves behind. */
  datatype Loaded = Loaded(tasks: seq<Task>, nextId: int)

  predicate IdsBelow(ts: seq<Task>, bound: int)
  {
    forall k :: 0 <= k < |ts| ==> ts[k].id < bound
  }

  predicate AllStamped(ts: seq<Task>)
  {
    forall k :: 0 <= k < |ts| ==> Stamped(ts[k])
  }

  // ---------------------------------------------------------------------
  // Persistence

  /** The list of dicts `_save` writes: `[t.to_dict() for t in tasks]`. */
  function Serialize(ts: seq<Task>): (r: seq<Json>)
    ensures |r| == |ts|
    ensures forall k :: 0 <= k < |ts| ==> r[k].Object? && r[k].fields == ToDict(ts[k])
  {
    seq(|ts|, k requires 0 <= k < |ts| => Object(ToDict(ts[k])))
  }

  /** The file after a successful `_save` of `ts`: a JSON list holding one
      dict per task (`SaveLoadRoundTrip` reads it back). */
  function Snapshot(ts: seq<Task>): (d: Disk)
    ensures d.File? && d.content.Array? && |d.content.items| == |ts|
    ensures forall k :: 0 <= k < |ts| ==> d.content.items[k].Object?
  {
    File(Array(Serialize(ts)))
  }

  /** `[Task.from_dict(d) for d in data]`: the first element that is not a dict
      (AttributeError) or whose `id` does not convert stops the whole load. */
  function DecodeAll(items: seq<Json>, now: string): (r: Result<seq<Task>>)
    ensures r.Ok? ==> |r.value| == |items| && AllStamped(r.value)
    ensures r.Ok? ==> forall k :: 0 <= k < |items| ==>
      items[k].Object? && FromDict(items[k].fields, now) == Ok(r.value[k])
    ensures r.Err? ==> exists k :: (0 <= k < |items| &&
      (!items[k].Object? || FromDict(items[k].fields, now).Err?))
  {
    if items == [] then Ok([])
    else
      match items[0]
      case Object(fields) =>
        (match FromDict(fields, now)
         case Err(e) => Err(e)
         case Ok(t) =>
           match DecodeAll(items[1..], now)
           case Err(e) =>
             assert forall k :: 0 <= k < |items| - 1 ==> items[1..][k] == items[k + 1];
             Err(e)
           case Ok(ts) =>
             assert forall k :: 0 <= k < |items| - 1 ==> items[1..][k] == items[k + 1];
             Ok([t] + ts))
      case _ => Err(AttributeError)
  }

  /** `max((t.id for t in ts), default=0)`. */
  function MaxId(ts: seq<Task>): (m: int)
    ensures ts == [] ==> m == 0
    ensures forall k :: 0 <= k < |ts| ==> ts[k].id <= m
    ensures ts != [] ==> exists k :: 0 <= k < |ts| && ts[k].id == m
  {
    if |ts| <= 1 then (if ts == [] then 0 else ts[0].id)
    else
      var rest := MaxId(ts[1..]);
      assert forall k :: 1 <= k < |ts| ==> ts[k] == ts[1..][k - 1];
      if ts[0].id >= rest then ts[0].id else rest
  }

  /** `_load`: a file holding a list of decodable records gives those tasks and
      a next id one above the largest id (1 for an empty list); every other
      outcome leaves the empty list and the initial next id 1. */
  function Load(disk: Disk, now: string): (l: Loaded)
    ensures IdsBelow(l.tasks, l.nextId) && AllStamped(l.tasks)
    ensures l.tasks == [] ==> l.nextId == 1
    ensures l.tasks != [] ==> exists k :: 0 <= k < |l.tasks| && l.tasks[k].id == l.nextId - 1
    ensures !(disk.File? && disk.content.Array?) ==> l == Loaded([], 1)
    ensures disk.File? && disk.content.Array? ==>
      match DecodeAll(disk.content.items, now)
      case Ok(ts) => l.tasks == ts
      case Err(_) => l == Loaded([], 1)
  {
    match disk
    case File(Array(items)) =>
      (match DecodeAll(items, now)
       case Ok(ts) => Loaded(ts, MaxId(ts) + 1)
       case Err(_) => Loaded([], 1))
    case _ => Loaded([], 1)
  }

  lemma {:induction false} DecodeSerialized(ts: seq<Task>, now: string)
    requires AllStamped(ts)
    ensures DecodeAll(Serialize(ts), now) == Ok(ts)
  {
    if ts != [] {
      DictRoundTrip(ts[0], now);
      assert Serialize(ts)[1..] == Serialize(ts[1..]);
      DecodeSerialized(ts[1..], now);
      assert [ts[0]] + ts[1..] == ts;
    }
  }

  /** Reading back what `_save` wrote restores the same tasks, in the same order,
      with the next id recomputed from them. */
  lemma {:induction false} SaveLoadRoundTrip(ts: seq<Task>, now: string)
    requires AllStamped(ts)
    ensures Load(Snapshot(ts), now) == Loaded(ts, MaxId(ts) + 1)
  {
    DecodeSerialized(ts, now);
  }

  /** Reloading a non-empty list never raises the next id, and reloading an
      empty one restarts it at 1: after a clear, ids handed out before a restart
      can be handed out again. */
  lemma {:induction false} ReloadNextId(ts: seq<Task>, nextId: int, now: string)
    requires AllStamped(ts) && IdsBelow(ts, nextId)
    ensures ts != [] ==> Load(Snapshot(ts), now).nextId <= nextId
    ensures ts == [] ==> Load(Snapshot(ts), now).nextId == 1
  {
    SaveLoadRoundTrip(ts, now);
  }

  /** Where every id on file is negative, the next id in memory is below 1, and
      a reload after a clear raises it to 1: the file `[{"id": -3}]` loads with
      next id -2. */
  lemma NegativeIdsReload(now: string)
    ensures Load(File(Array([Object(map["id" := Int(-3)])])), now).nextId == -2
    ensures Load(Snapshot([]), now).nextId == 1
  {
    var items := [Object(map["id" := Int(-3)])];
    var t := Task(-3, "", false, Str(now));
    assert FromDict(map["id" := Int(-3)], now) == Ok(t);
    assert items[1..] == [];
    assert [t] + [] == [t];
    assert DecodeAll(items, now) == Ok([t]);
    assert MaxId([t]) == -3;
  }

  // ---------------------------------------------------------------------
  // List operations

  /** `xs.pop(k)` on the list: the element at `k` goes, the rest keep their order. */
  function RemoveAt(s: seq<Task>, k: nat): (r: seq<Task>)
    requires k < |s|
    ensures |r| == |s| - 1
    ensures forall j :: 0 <= j < k ==> r[j] == s[j]
    ensures forall j :: k <= j < |r| ==> r[j] == s[j + 1]
    ensures multiset(r) + multiset{s[k]} == multiset(s)
  {
    assert s == s[..k] + [s[k]] + s[k + 1..];
    s[..k] + s[k + 1..]
  }

  /** The list after `task.completed = not task.completed` on the task at `k`. */
  function ToggleAt(s: seq<Task>, k: nat): (r: seq<Task>)
    requires k < |s|
    ensures |r| == |s|
    ensures r[k].completed == !s[k].completed
    ensures r[k].id == s[k].id && r[k].title == s[k].title && r[k].createdAt == s[k].createdAt
    ensures forall j :: 0 <= j < |s| && j != k ==> r[j] == s[j]
  {
    s[k := s[k].(completed := !s[k].completed)]
  }

  /** Toggling the same position twice gives back the original list. */
  lemma ToggleTwice(s: seq<Task>, k: nat)
    requires k < |s|
    ensures ToggleAt(ToggleAt(s, k), k) == s
  {
  }

  /** The title `add_task` would use: `str(title).strip()` for a bare value,
      `str(data.get('title', '')).strip()` for a payload. */
  function InputTitle(input: TaskInput): (r: string)
    ensures input.Plain? ==> (r == [] <==> AllSpace(PyStr(input.title)))
    ensures input.Payload? ==> (r == [] <==> AllSpace(PyStr(Get(input.fields, "title", Str("")))))
    ensures input.Payload? && "title" !in input.fields ==> r == []
    ensures r != [] ==> !IsSpace(r[0]) && !IsSpace(r[|r| - 1])
  {
    match input
    case Plain(v) => Strip(PyStr(v))
    case Payload(fields) => Strip(PyStr(Get(fields, "title", Str(""))))
  }

  // ---------------------------------------------------------------------
  // The store

  class DataModel {
    var tasks: seq<Task>
    var nextId: int
    var data: string
    var events: seq<Event>
    /** The last content of the backing file. */
    ghost var stored: Disk

    /** Every task was stamped at construction and has an id below the next one
        to hand out, so a newly assigned id is larger than every id present. */
    ghost predicate Valid()
      reads this
    {
      IdsBelow(tasks, nextId) && AllStamped(tasks)
    }

    /** `DataModel(storage_path)`: load the file found on disk; when there is none,
        write an empty list to it. `saveOk` says whether that write succeeds. */
    constructor (disk: Disk, now: string, ghost saveOk: bool)
      ensures Valid()
      ensures Loaded(tasks, nextId) == Load(disk, now)
      ensures data == "" && events == []
      ensures stored == if disk.NoFile? && saveOk then Snapshot([]) else disk
    {
      data := "";
      events := [];
      tasks := [];
      nextId := 1;
      stored := disk;
      match disk {
        case NoFile =>
          if saveOk {
            stored := Snapshot([]);
          }
        case Unreadable =>
        case File(content) =>
          if content.Array? {
            match DecodeAll(content.items, now) {
              case Ok(ts) =>
                tasks := ts;
                nextId := MaxId(ts) + 1;
              case Err(_) =>
            }
          }
      }
    }

    /** `_save`: overwrite the file with the current list; a failed write is
        swallowed and leaves the file as it was. */
    method Save(ghost saveOk: bool)
      modifies this`stored
      ensures stored == if saveOk then Snapshot(tasks) else old(stored)
    {
      if saveOk {
        stored := Snapshot(tasks);
      }
    }

    /** Setting the `data` property: the value is always taken, and
        `data_changed` fires only when it differs from the old one. */
    method SetData(value: string)
      modifies this`data, this`events
      ensures data == value
      ensures events == old(events) + if old(data) == value then [] else [DataChanged(value)]
    {
      if data != value {
        data := value;
        events := events + [DataChanged(value)];
      }
    }

    /** `add_task`: a blank title is a no-op returning None. A payload with a
        real title raises TypeError when the task is built, because the task
        record has no description, deadline or priority fields; nothing has
        changed by then. A bare title appends a new uncompleted task carrying
        the next id, advances the id, saves and signals. */
    method AddTask(input: TaskInput, now: string, ghost saveOk: bool) returns (r: AddOutcome)
      requires Valid()
      modifies this
      ensures Valid()
      ensures |InputTitle(input)| == 0 ==> r == NotAdded && unchanged(this)
      ensures |InputTitle(input)| > 0 && input.Payload? ==> r == Raised(TypeError) && unchanged(this)
      ensures |InputTitle(input)| > 0 && input.Plain? ==>
        && r == Added(Create(old(nextId), InputTitle(input), now))
        && tasks == old(tasks) + [r.task]
        && nextId == old(nextId) + 1
        && data == old(data)
        && events == old(events) + [TasksChanged]
        && stored == (if saveOk then Snapshot(tasks) else old(stored))
      ensures r.Added? ==> forall k :: 0 <= k < |old(tasks)| ==> old(tasks)[k].id < r.task.id
    {
      var titleText := InputTitle(input);
      if |titleText| == 0 {
        return NotAdded;
      }
      if input.Payload? {
        // Task(id=..., title=..., description=..., deadline=..., priority=...)
        return Raised(TypeError);
      }
      var task := Create(nextId, titleText, now);
      Append(task, saveOk);
      r := Added(task);
    }

    /** The steps after a task is built: take the next id, append, save, signal. */
    method Append(task: Task, ghost saveOk: bool)
      requires Valid() && task.id == nextId && Stamped(task)
      modifies this
      ensures Valid()
      ensures tasks == old(tasks) + [task] && nextId == old(nextId) + 1 && data == old(data)
      ensures events == old(events) + [TasksChanged]
      ensures stored == if saveOk then Snapshot(tasks) else old(stored)
    {
      nextId := nextId + 1;
      tasks := tasks + [task];
      Save(saveOk);
      events := events + [TasksChanged];
    }

    /** `get_tasks`: a copy of the list, in order. */
    function GetTasks(): (r: seq<Task>)
      reads this
      ensures |r| == |tasks| && forall k :: 0 <= k < |r| ==> r[k] == tasks[k]
    {
      tasks
    }

    /** `get_task_count`. */
    function GetTaskCount(): (r: nat)
      reads this
      ensures r == |GetTasks()|
    {
      |tasks|
    }

    /** `clear_tasks`: always empties the list; the next id is kept, so no id
        is reused in this session. */
    method ClearTasks(ghost saveOk: bool)
      requires Valid()
      modifies this
      ensures Valid()
      ensures tasks == [] && nextId == old(nextId) && data == old(data)
      ensures events == old(events) + [TasksChanged]
      ensures stored == if saveOk then Snapshot([]) else old(stored)
    {
      tasks := [];
      Save(saveOk);
      events := events + [TasksChanged];
    }

    /** `remove_task_by_index`: for `-n <= index < n` removes the task Python's
        indexing picks, keeps the others in order, saves, signals and answers
        true; any other index answers false and changes nothing. */
    method RemoveTaskByIndex(index: int, ghost saveOk: bool) returns (ok: bool)
      requires Valid()
      modifies this
      ensures Valid()
      ensures ok <==> -|old(tasks)| <= index < |old(tasks)|
      ensures !ok ==> unchanged(this)
      ensures ok ==>
        && tasks == RemoveAt(old(tasks), ListPosition(index, |old(tasks)|).value)
        && nextId == old(nextId) && data == old(data)
        && events == old(events) + [TasksChanged]
        && stored == (if saveOk then Snapshot(tasks) else old(stored))
    {
      var pos := ListPosition(index, |tasks|);
      if pos.None? {
        return false;
      }
      tasks := RemoveAt(tasks, pos.value);
      Save(saveOk);
      events := events + [TasksChanged];
      ok := true;
    }

    /** `toggle_task_completed`: on a valid index flips that task's `completed`
        flag and nothing else, saves, signals and returns the updated task; on
        any other index returns None and changes nothing. */
    method ToggleTaskCompleted(index: int, ghost saveOk: bool) returns (r: Option<Task>)
      requires Valid()
      modifies this
      ensures Valid()
      ensures r.Some? <==> -|old(tasks)| <= index < |old(tasks)|
      ensures r.None? ==> unchanged(this)
      ensures r.Some? ==>
        var k := ListPosition(index, |old(tasks)|).value;
        && tasks == ToggleAt(old(tasks), k)
        && r.value == tasks[k]
        && nextId == old(nextId) && data == old(data)
        && events == old(events) + [TasksChanged]
        && stored == (if saveOk then Snapshot(tasks) else old(stored))
    {
      var pos := ListPosition(index, |tasks|);
      if pos.None? {
        return None;
      }
      var k := pos.value;
      tasks := ToggleAt(tasks, k);
      Save(saveOk);
      events := events + [TasksChanged];
      r := Some(tasks[k]);
    }

    /** `get_task`: the task at a valid Python index, None for any other. */
    function GetTask(index: int): (r: Option<Task>)
      reads this
      ensures r.Some? <==> -|tasks| <= index < |tasks|
      ensures r.Some? && index >= 0 ==> r.value == tasks[index]
      ensures r.Some? && index < 0 ==> r.value == tasks[|tasks| + index]
    {
      match ListPosition(index, |tasks|)
      case None => None
      case Some(k) => Some(tasks[k])
    }
  }

  // ---------------------------------------------------------------------
  // Properties of call sequences

  /** Two toggles of the same index give back the original list, the first
      returning the negated flag and the second the original task. */
  method ToggleTwiceRestores(m: DataModel, index: int, ghost saveOk: bool)
      returns (first: Option<Task>, second: Option<Task>)
    requires m.Valid()
    modifies m
    ensures m.Valid()
    ensures m.tasks == old(m.tasks) && m.nextId == old(m.nextId)
    ensures first.Some? <==> -|old(m.tasks)| <= index < |old(m.tasks)|
    ensures first.Some? <==> second.Some?
    ensures first.Some? ==>
      var k := ListPosition(index, |old(m.tasks)|).value;
      && first.value.completed == !old(m.tasks)[k].completed
      && second.value == old(m.tasks)[k]
  {
    ghost var k := ListPosition(index, |m.tasks|);
    first := m.ToggleTaskCompleted(index, saveOk);
    second := m.ToggleTaskCompleted(index, saveOk);
    if first.Some? {
      ToggleTwice(old(m.tasks), k.value);
    }
  }

  /** A title without surrounding whitespace is taken as it is, in either form. */
  lemma TrimmedTitleKept(title: string, fields: Record)
    requires title == [] || (!IsSpace(title[0]) && !IsSpace(title[|title| - 1]))
    requires "title" in fields && fields["title"] == Str(title)
    ensures InputTitle(Plain(Str(title))) == title
    ensures InputTitle(Payload(fields)) == title
  {
    StripKeepsTrimmed(title);
  }

  function SessionPayload(): Record
  {
    map["title" := Str("Plan trip"), "priority" := Str("High"), "deadline" := Str("2026-01-10")]
  }

  lemma SessionTitles()
    ensures InputTitle(Plain(Str("Buy milk"))) == "Buy milk"
    ensures InputTitle(Payload(SessionPayload())) == "Plan trip"
  {
    TrimmedTitleKept("Buy milk", map["title" := Str("Buy milk")]);
    TrimmedTitleKept("Plan trip", SessionPayload());
  }

  /** A session on a fresh path: a bare title is added with id 1, a dict payload
      raises, the first task is toggled, and reading the file back gives the
      same single completed task. */
  method FreshStoreSession(now: string)
  {
    var payload := SessionPayload();
    SessionTitles();
    var m := new DataModel(NoFile, now, true);
    assert m.tasks == [] && m.nextId == 1;
    var added := m.AddTask(Plain(Str("Buy milk")), now, true);
    assert added.Added? && added.task.id == 1 && m.GetTaskCount() == 1;
    var raised := m.AddTask(Payload(payload), now, true);
    assert raised == Raised(TypeError) && m.GetTaskCount() == 1 && m.nextId == 2;
    var toggled := m.ToggleTaskCompleted(0, true);
    assert toggled.Some? && toggled.value.completed;
    SaveLoadRoundTrip(m.tasks, now);
    assert Load(m.stored, now).tasks == m.tasks;
    var missing := m.RemoveTaskByIndex(5, true);
    assert !missing && m.GetTaskCount() == 1;
  }
}
