/** The task store (`TaskManager` in js/task.js): an ordered list of tasks,
    the current filter, and a write-through copy of the list in the
    browser's local storage.

    Every asynchronous operation is a pure transition. What the remote task
    service answered is a parameter (`Ok` with its reply, or `Err` with the
    cause of the failure), and the transition reports the request it sent in
    `Step.call` (`None` when no request was made: a cache hit or malformed
    cache in `init`, or an id not found by `toggleTaskCompletion` or
    `updateTask`). */
module TaskManager {
  import opened Wrappers
  import opened Tasks
  import Filtering

  /** The value of `currentFilter`. Anything other than the three names the
      store knows is kept as it was given. */
  datatype FilterMode = All | Active | Completed | Other(name: string)

  /** What the local-storage key `tasks` holds: either what the store wrote
      (`Json`, the serialisation of a task list, never an empty string) or
      any other text that does not parse as a task list. */
  datatype Blob = Json(tasks: seq<Task>) | Text(raw: string)

  /** Local storage is missing from some environments; when present, the
      `tasks` key may be unset. */
  datatype Storage = Unavailable | Available(entry: Option<Blob>)

  datatype Store = Store(tasks: seq<Task>, filter: FilterMode, storage: Storage)

  /** The errors the store raises to its caller. */
  datatype Error =
    | NotFound(id: Id)            // no task with that id in the list
    | RemoteFailure(cause: string) // the remote service call failed
    | MalformedCache              // `JSON.parse` threw on the cached text

  /** The requests the store makes of the remote task service. */
  datatype Call =
    | FetchAll                          // getTasks()
    | Create(payload: Patch)            // addTask(payload)
    | Replace(id: Id, record: Task)     // updateTask(id, record)
    | Remove(id: Id)                    // deleteTask(id)

  /** The outcome of one store operation: the store afterwards, the remote
      request made (if any), and the value returned or the error thrown. */
  datatype Step<T> = Step(store: Store, call: Option<Call>, out: Result<T, Error>)

  /** The cached list is exactly the in-memory list (or there is no cache). */
  predicate Mirrors(s: Store) {
    s.storage.Available? ==> s.storage.entry == Some(Json(s.tasks))
  }

  /** The list holds no two tasks with the same id. */
  predicate UniqueIds(tasks: seq<Task>) {
    forall i, j :: 0 <= i < j < |tasks| ==> tasks[i].id != tasks[j].id
  }

  /** No task in the list carries `id`. */
  predicate Absent(tasks: seq<Task>, id: Id) {
    forall i :: 0 <= i < |tasks| ==> tasks[i].id != id
  }

  /** `i` is the first index whose task carries `id`. */
  predicate FirstMatch(tasks: seq<Task>, id: Id, i: int) {
    && 0 <= i < |tasks|
    && tasks[i].id == id
    && forall j :: 0 <= j < i ==> tasks[j].id != id
  }

  predicate IsActive(t: Task) { !t.completed }

  predicate IsDone(t: Task) { t.completed }

  /** The test `task => task.id !== id` that `deleteTask` filters with. */
  function Survives(id: Id): Task -> bool {
    (t: Task) => t.id != id
  }

  /** Filtering out an id nobody carries keeps the whole list. */
  lemma KeepAllWhenAbsent(tasks: seq<Task>, id: Id)
    ensures Absent(tasks, id) ==> Filtering.Filter(tasks, Survives(id)) == tasks
  {
    if Absent(tasks, id) {
      Filtering.FilterKeepsAll(tasks, Survives(id));
    }
  }

  /** `new TaskManager()` in an environment with the given local storage. */
  function NewStore(storage: Storage): (s: Store)
    ensures s.tasks == [] && s.filter == All && s.storage == storage
  {
    Store([], All, storage)
  }

  /** The filter a name selects; unknown names are kept verbatim. */
  function ParseFilter(name: string): (f: FilterMode)
    ensures f.Other? <==> name != "all" && name != "active" && name != "completed"
    ensures FilterName(f) == name
  {
    if name == "all" then All
    else if name == "active" then Active
    else if name == "completed" then Completed
    else Other(name)
  }

  function FilterName(f: FilterMode): string {
    match f
    case All => "all"
    case Active => "active"
    case Completed => "completed"
    case Other(name) => name
  }

  /** `getFilteredTasks`: the incomplete tasks under `active`, the completed
      ones under `completed`, and the whole list under `all` or any other
      value. */
  function GetFilteredTasks(s: Store): (r: seq<Task>)
    ensures s.filter.All? || s.filter.Other? ==> r == s.tasks
    ensures s.filter.Active? || s.filter.Completed? ==>
              && |r| <= |s.tasks|
              && (forall i :: 0 <= i < |r| ==> r[i] in s.tasks && r[i].completed == s.filter.Completed?)
              && (forall i :: 0 <= i < |s.tasks| && s.tasks[i].completed == s.filter.Completed? ==>
                    s.tasks[i] in r)
  {
    match s.filter
    case Active => Filtering.FilterMembers(s.tasks, IsActive); Filtering.Filter(s.tasks, IsActive)
    case Completed => Filtering.FilterMembers(s.tasks, IsDone); Filtering.Filter(s.tasks, IsDone)
    case _ => s.tasks
  }

  /** `setFilter`: stores the filter, touches nothing else, and returns the
      filtered view under it. */
  function SetFilter(s: Store, name: string): (r: (Store, seq<Task>))
    ensures r.0.tasks == s.tasks && r.0.storage == s.storage
    ensures r.0.filter == ParseFilter(name)
    ensures FilterName(r.0.filter) == name
    ensures r.1 == GetFilteredTasks(r.0)
    ensures name != "active" && name != "completed" ==> r.1 == s.tasks
  {
    var s' := s.(filter := ParseFilter(name));
    (s', GetFilteredTasks(s'))
  }

  /** `saveToLocalStorage`: overwrites the cached list with the current one
      when local storage exists, and does nothing otherwise. */
  function Persist(s: Store): (r: Store)
    ensures r.tasks == s.tasks && r.filter == s.filter
    ensures r.storage.Available? == s.storage.Available?
    ensures Mirrors(r)
  {
    if s.storage.Available? then s.(storage := Available(Some(Json(s.tasks)))) else s
  }

  /** The truthiness test of `init`: the `tasks` key is set to a non-empty string. */
  function CacheHit(st: Storage): (b: bool)
    ensures b ==> st.Available? && st.entry.Some?
    ensures st.Available? && st.entry.Some? && st.entry.value.Json? ==> b
    ensures st.Available? && st.entry == Some(Text("")) ==> !b
    ensures st.Available? && st.entry.Some? && st.entry.value.Text? && st.entry.value.raw != "" ==> b
  {
    st.Available? && st.entry.Some? && (st.entry.value.Json? || st.entry.value.raw != "")
  }

  /** `JSON.parse` of the cached text, when it is a task list. */
  function ReadCache(st: Storage): (r: Option<seq<Task>>)
    ensures r.Some? ==> CacheHit(st)
    ensures r.Some? <==> st.Available? && st.entry.Some? && st.entry.value.Json?
    ensures r.Some? ==> r.value == st.entry.value.tasks
  {
    if st.Available? && st.entry.Some? && st.entry.value.Json? then Some(st.entry.value.tasks) else None
  }

  /** `init`: loads the list from the cache when the `tasks` key holds a
      non-empty string (throwing if it does not parse), and otherwise fetches
      it from the remote service and writes it to the cache. */
  function Init(s: Store, fetched: Result<seq<Task>, string>): (r: Step<seq<Task>>)
    ensures r.out.Err? ==> r.store == s
    ensures r.out.Ok? ==> r.out.value == r.store.tasks && Mirrors(r.store)
    ensures r.store.filter == s.filter && r.store.storage.Available? == s.storage.Available?
    ensures ReadCache(s.storage).Some? ==>
              r == Step(s.(tasks := ReadCache(s.storage).value), None, Ok(ReadCache(s.storage).value))
    ensures CacheHit(s.storage) && ReadCache(s.storage).None? ==> r == Step(s, None, Err(MalformedCache))
    ensures s.storage.Available? && s.storage.entry.Some? && s.storage.entry.value.Text?
              && s.storage.entry.value.raw != "" ==>
              r == Step(s, None, Err(MalformedCache))
    ensures !CacheHit(s.storage) ==>
              && r.call == Some(FetchAll)
              && (fetched.Ok? ==> r.out == Ok(fetched.value) && r.store == Persist(s.(tasks := fetched.value)))
              && (fetched.Err? ==> r.out == Err(RemoteFailure(fetched.error)))
  {
    if CacheHit(s.storage) then
      match ReadCache(s.storage)
      case Some(cached) => Step(s.(tasks := cached), None, Ok(cached))
      case None => Step(s, None, Err(MalformedCache))
    else
      match fetched
      case Ok(tasks) => Step(Persist(s.(tasks := tasks)), Some(FetchAll), Ok(tasks))
      case Err(cause) => Step(s, Some(FetchAll), Err(RemoteFailure(cause)))
  }

  /** The record `addTask` sends: the caller's data with `completed` forced
      to false and `createdAt` stamped. */
  function NewTaskPayload(data: Patch, now: string): (p: Patch)
    ensures p.completed == Some(false) && p.createdAt == Some(Some(now))
    ensures p.(completed := data.completed, createdAt := data.createdAt) == data
  {
    Overlay(data, NoChange.(completed := Some(false), createdAt := Some(Some(now))))
  }

  /** `addTask`: asks the service to create the task and appends what it
      returns. */
  function AddTask(s: Store, data: Patch, now: string, reply: Result<Task, string>): (r: Step<Task>)
    ensures r.call == Some(Create(NewTaskPayload(data, now)))
    ensures reply.Err? ==> r.store == s && r.out == Err(RemoteFailure(reply.error))
    ensures reply.Ok? ==>
              && r.out == Ok(reply.value)
              && |r.store.tasks| == |s.tasks| + 1
              && r.store.tasks[..|s.tasks|] == s.tasks
              && r.store.tasks[|s.tasks|] == reply.value
              && r.store.filter == s.filter
              && r.store.storage.Available? == s.storage.Available?
              && Mirrors(r.store)
              && r.store == Persist(s.(tasks := s.tasks + [reply.value]))
  {
    var call := Some(Create(NewTaskPayload(data, now)));
    match reply
    case Ok(created) => Step(Persist(s.(tasks := s.tasks + [created])), call, Ok(created))
    case Err(cause) => Step(s, call, Err(RemoteFailure(cause)))
  }

  /** `findIndex` from position `lo` on, given that no earlier task matches. */
  function FindIndex(tasks: seq<Task>, id: Id, lo: nat): (r: Option<nat>)
    requires lo <= |tasks|
    requires forall j :: 0 <= j < lo ==> tasks[j].id != id
    ensures r.Some? ==> FirstMatch(tasks, id, r.value)
    ensures r.None? ==> Absent(tasks, id)
    decreases |tasks| - lo
  {
    if lo == |tasks| then None
    else if tasks[lo].id == id then Some(lo)
    else FindIndex(tasks, id, lo + 1)
  }

  /** Sends `record` as the new version of the task at index `i` and, on
      success, puts the service's answer in that slot. */
  function ReplaceAt(s: Store, id: Id, i: nat, record: Task, reply: Result<Task, string>): (r: Step<Task>)
    requires i < |s.tasks|
    ensures r.call == Some(Replace(id, record))
    ensures reply.Err? ==> r.store == s && r.out == Err(RemoteFailure(reply.error))
    ensures reply.Ok? ==>
              && r.out == Ok(reply.value)
              && |r.store.tasks| == |s.tasks|
              && r.store.tasks[i] == reply.value
              && (forall j :: 0 <= j < |s.tasks| && j != i ==> r.store.tasks[j] == s.tasks[j])
              && r.store.filter == s.filter
              && r.store.storage.Available? == s.storage.Available?
              && Mirrors(r.store)
              && r.store == Persist(s.(tasks := s.tasks[i := reply.value]))
  {
    var call := Some(Replace(id, record));
    match reply
    case Ok(updated) => Step(Persist(s.(tasks := s.tasks[i := updated])), call, Ok(updated))
    case Err(cause) => Step(s, call, Err(RemoteFailure(cause)))
  }

  /** `toggleTaskCompletion`: fails with `NotFound` before any remote call
      when no task has the id; otherwise sends the first matching task with
      `completed` negated and stores the answer in its slot. */
  function ToggleTaskCompletion(s: Store, id: Id, reply: Result<Task, string>): (r: Step<Task>)
    ensures Absent(s.tasks, id) ==> r == Step(s, None, Err(NotFound(id)))
    ensures forall i | FirstMatch(s.tasks, id, i) ::
              && r.call == Some(Replace(id, s.tasks[i].(completed := !s.tasks[i].completed)))
              && (reply.Err? ==> r.store == s && r.out == Err(RemoteFailure(reply.error)))
              && (reply.Ok? ==> r.out == Ok(reply.value) && r.store == Persist(s.(tasks := s.tasks[i := reply.value])))
  {
    match FindIndex(s.tasks, id, 0)
    case None => Step(s, None, Err(NotFound(id)))
    case Some(i) =>
      var current := s.tasks[i];
      ReplaceAt(s, id, i, current.(completed := !current.completed), reply)
  }

  /** `updateTask`: fails with `NotFound` before any remote call when no task
      has the id; otherwise sends `{...task, ...patch, updatedAt: now}` for
      the first matching task and stores the answer in its slot. */
  function UpdateTask(s: Store, id: Id, patch: Patch, now: string, reply: Result<Task, string>): (r: Step<Task>)
    ensures Absent(s.tasks, id) ==> r == Step(s, None, Err(NotFound(id)))
    ensures forall i | FirstMatch(s.tasks, id, i) ::
              && r.call.Some? && r.call.value.Replace? && r.call.value.id == id
              && r.call.value.record == Merge(s.tasks[i], Overlay(patch, NoChange.(updatedAt := Some(Some(now)))))
              && Agrees(patch.(updatedAt := None), r.call.value.record)
              && SameOutside(patch.(updatedAt := Some(None)), s.tasks[i], r.call.value.record)
              && r.call.value.record.updatedAt == Some(now)
              && (reply.Err? ==> r.store == s && r.out == Err(RemoteFailure(reply.error)))
              && (reply.Ok? ==> r.out == Ok(reply.value) && r.store == Persist(s.(tasks := s.tasks[i := reply.value])))
  {
    match FindIndex(s.tasks, id, 0)
    case None => Step(s, None, Err(NotFound(id)))
    case Some(i) =>
      var record := Merge(Merge(s.tasks[i], patch), NoChange.(updatedAt := Some(Some(now))));
      ReplaceAt(s, id, i, record, reply)
  }

  /** `deleteTask`: asks the service to delete first and, only if that
      succeeds, drops every task carrying the id. */
  function DeleteTask(s: Store, id: Id, reply: Result<(), string>): (r: Step<Id>)
    ensures r.call == Some(Remove(id))
    ensures reply.Err? ==> r.store == s && r.out == Err(RemoteFailure(reply.error))
    ensures reply.Ok? ==>
              && r.out == Ok(id)
              && Absent(r.store.tasks, id)
              && (forall i :: 0 <= i < |s.tasks| && s.tasks[i].id != id ==> s.tasks[i] in r.store.tasks)
              && (forall i :: 0 <= i < |r.store.tasks| ==> r.store.tasks[i] in s.tasks)
              && (Absent(s.tasks, id) ==> r.store.tasks == s.tasks)
              && r.store.filter == s.filter
              && r.store.storage.Available? == s.storage.Available?
              && Mirrors(r.store)
              && r.store == Persist(s.(tasks := r.store.tasks))
  {
    match reply
    case Ok(_) =>
      KeepAllWhenAbsent(s.tasks, id);
      Filtering.FilterMembers(s.tasks, Survives(id));
      Step(Persist(s.(tasks := Filtering.Filter(s.tasks, Survives(id)))), Some(Remove(id)), Ok(id))
    case Err(cause) => Step(s, Some(Remove(id)), Err(RemoteFailure(cause)))
  }

  /** `refreshTasks`: replaces the list and the cache with the service's
      list and returns the filtered view of it. */
  function RefreshTasks(s: Store, fetched: Result<seq<Task>, string>): (r: Step<seq<Task>>)
    ensures r.call == Some(FetchAll)
    ensures fetched.Err? ==> r.store == s && r.out == Err(RemoteFailure(fetched.error))
    ensures fetched.Ok? ==>
              && r.store.tasks == fetched.value
              && r.store.filter == s.filter
              && r.store.storage.Available? == s.storage.Available?
              && Mirrors(r.store)
              && r.store == Persist(s.(tasks := fetched.value))
              && r.out == Ok(GetFilteredTasks(r.store))
  {
    match fetched
    case Ok(tasks) =>
      var s' := Persist(s.(tasks := tasks));
      Step(s', Some(FetchAll), Ok(GetFilteredTasks(s')))
    case Err(cause) => Step(s, Some(FetchAll), Err(RemoteFailure(cause)))
  }
}
