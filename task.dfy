/**
 The task record: four fields, a constructor that stamps a missing creation
 time from the clock, and the conversion to and from the plain mapping that is
 written to the store's file.
 */
module TaskEntity {
  import opened Python

  /** One task. `createdAt` holds whatever value the task was built with; the
      constructor never leaves it `Null`. */
  datatype Task = Task(id: int, title: string, completed: bool, createdAt: Scalar)

  /** The serialised form of a task: a mapping from key to scalar value. */
  type Record = map<string, Scalar>

  /** `d.get(key, default)`. */
  function Get(d: Record, key: string, default: Scalar): (v: Scalar)
    ensures key in d ==> v == d[key]
    ensures key !in d ==> v == default
  {
    if key in d then d[key] else default
  }

  /** A task whose creation time was set: what every constructed task satisfies. */
  predicate Stamped(t: Task)
  {
    !t.createdAt.Null?
  }

  /** `Task(id, title, completed, created_at)` with the clock reading `now`: a
      missing creation time is replaced by the current time, a supplied one is kept. */
  function NewTask(id: int, title: string, completed: bool, createdAt: Scalar, now: string): (t: Task)
    ensures Stamped(t)
    ensures t.id == id && t.title == title && t.completed == completed
    ensures !createdAt.Null? ==> t.createdAt == createdAt
    ensures createdAt.Null? ==> t.createdAt == Str(now)
  {
    Task(id, title, completed, if createdAt.Null? then Str(now) else createdAt)
  }

  /** `Task(id=..., title=...)`: not completed, stamped with the clock. */
  function Create(id: int, title: string, now: string): (t: Task)
    ensures t.id == id && t.title == title
    ensures !t.completed
    ensures t.createdAt == Str(now)
  {
    NewTask(id, title, false, Null, now)
  }

  /** `to_dict`: exactly the four keys, each holding the task's value. */
  function ToDict(t: Task): (d: Record)
    ensures d.Keys == {"id", "title", "completed", "created_at"}
    ensures d["id"] == Int(t.id) && d["title"] == Str(t.title)
    ensures d["completed"] == Bool(t.completed) && d["created_at"] == t.createdAt
  {
    map["id" := Int(t.id), "title" := Str(t.title), "completed" := Bool(t.completed),
        "created_at" := t.createdAt]
  }

  /** `from_dict`: every missing key takes its default; the only failure is an
      `id` value that `int()` rejects. */
  function FromDict(d: Record, now: string): (r: Result<Task>)
    ensures r.Err? <==> "id" in d && PyInt(d["id"]).Err?
    ensures r.Err? ==> r == Err(PyInt(d["id"]).error)
    ensures r.Ok? ==> Stamped(r.value)
    ensures r.Ok? && "id" !in d ==> r.value.id == 0
    ensures r.Ok? && "title" !in d ==> r.value.title == ""
    ensures r.Ok? && "completed" !in d ==> !r.value.completed
    ensures r.Ok? && ("created_at" !in d || d["created_at"].Null?) ==> r.value.createdAt == Str(now)
    ensures r.Ok? && "created_at" in d && !d["created_at"].Null? ==> r.value.createdAt == d["created_at"]
  {
    match PyInt(Get(d, "id", Int(0)))
    case Err(e) => Err(e)
    case Ok(id) =>
      Ok(NewTask(id, PyStr(Get(d, "title", Str(""))), PyBool(Get(d, "completed", Bool(false))),
                 Get(d, "created_at", Null), now))
  }

  /** A stamped task survives serialisation unchanged, whatever the clock says
      when it is read back. */
  lemma {:induction false} DictRoundTrip(t: Task, now: string)
    requires Stamped(t)
    ensures FromDict(ToDict(t), now) == Ok(t)
  {
  }

  /** A record whose `id` is a numeral in a string is accepted, with that number. */
  lemma NumeralIdAccepted(d: Record, n: int, now: string)
    requires "id" in d && d["id"] == Str(IntToString(n))
    ensures FromDict(d, now).Ok? && FromDict(d, now).value.id == n
  {
    IntStrRoundTrip(n);
  }
}
