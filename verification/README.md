# Task store of a browser to-do list, in Dafny

This project models `TaskManager` from `js/task.js`. It is the state container of a browser to-do list application. It holds:

- an ordered list of task records;
- the current view filter (`all`, `active`, `completed`, or whatever string it was given);
- a write-through copy of the list under the local-storage key `tasks`.

Its operations combine a call to a remote task service with a change to the list and a rewrite of the cache. The operations are `init`, `getFilteredTasks`, `setFilter`, `addTask`, `toggleTaskCompletion`, `updateTask`, `deleteTask`, `refreshTasks` and `saveToLocalStorage`.

Every operation is a pure function from a `Store` to a `Step`. A `Step` holds three things:

- the store afterwards;
- the remote request made (`None` when no request was made: a cache hit or a malformed cache in `init`, or an id that `toggleTaskCompletion` or `updateTask` did not find);
- the value returned, or the error thrown.

The remote service is an oracle. Its answer is a parameter of the transition: `Ok(reply)`, or `Err(cause)` for a failed call. The local cache is a real field of the store, `Storage = Unavailable | Available(entry)`. The value `Unavailable` stands for environments without `localStorage`. An entry is either `Json(tasks)`, which is what the store itself writes, or `Text(raw)`, which is text that does not parse as a task list. Timestamps from `new Date().toISOString()` are opaque string parameters.

Files:

- `wrappers.dfy`: `Option` and `Result`.
- `tasks.dfy`: the `Task` record and JavaScript object spread. A `Patch` is a record whose keys may be absent. `Merge` is `{...task, ...patch}` and `Overlay` is `{...p, ...q}`.
- `filtering.dfy`: the order-preserving `Array.prototype.filter`. It comes with an independent description of its result: the ascending run of satisfying indices.
- `task_manager.dfy`: the store and its operations.
- `store_properties.dfy`: lemmas that relate operations to each other or to independent descriptions.

## Model

| member | source | states |
|---|---|---|
| TaskManager.NewStore | js/task.js:6-12 | A new store has an empty list and the `all` filter, and starts on whatever local storage the environment offers. |
| TaskManager.Init | js/task.js:15-32 | If the `tasks` key holds a parseable list, the list becomes that content and no remote call is made. If the key holds other non-empty text, init fails with a malformed-cache error and changes nothing. Otherwise it fetches the list remotely. On success the store is exactly the old store with the fetched list, saved: the filter is kept, local storage is neither created nor removed, and the cache equals the list. On failure the store is unchanged. |
| TaskManager.CacheHit | js/task.js:18 | The truthiness test of `init` holds only when local storage exists and the `tasks` key is set. It always holds for a list the store wrote and for any other non-empty text, and never for an empty string. |
| TaskManager.ReadCache | js/task.js:18-19 | The cached list is read exactly when the key is set and holds a serialised list, and the value read is that list. That case always passes the truthiness test of `init`. |
| TaskManager.GetFilteredTasks | js/task.js:35-45 | Under `all` or an unknown filter the view is the whole list. Under `active` (resp. `completed`) the view holds exactly the tasks with `completed` false (resp. true), and is no longer than the list. |
| StoreProperties.FilteredViewsKeepOrder | js/task.js:37-40 | The `active` and `completed` views are the matching tasks taken at ascending indices of the list: original order, nothing skipped, nothing repeated. |
| StoreProperties.ViewsPartitionTasks | js/task.js:37-40 | The `active` and `completed` views together hold every task exactly once, as multisets, and their lengths add up to the list's length. |
| TaskManager.ParseFilter | js/task.js:36-44 | A filter name maps to one of the three known filters exactly when it is one of their names. Any other name is kept verbatim, so the stored filter always reads back as the given name. |
| TaskManager.SetFilter | js/task.js:48-52 | `setFilter` stores the filter the name selects (`active` and `completed` select their filters, any other name is kept as given), leaves the list and cache untouched, and returns the view under the new filter. For any name other than `active` or `completed`, that view is the whole list. |
| StoreProperties.ReselectFilter | js/task.js:48-52 | Setting the filter a store already has, by its name, changes neither the store nor the view. |
| TaskManager.NewTaskPayload | js/task.js:58-62 | The record sent to create a task has `completed` false and `createdAt` equal to the timestamp, and agrees with the caller's data on every other key. |
| TaskManager.AddTask | js/task.js:55-74 | A create request is always made. On failure the store is unchanged and a remote error is raised. On success the list grows by exactly one: earlier tasks are unchanged, the new last task is the server's record, and the filter is kept. The store is then saved: local storage is neither created nor removed, and the cache equals the list. |
| TaskManager.FindIndex | js/task.js:80-83 | The search returns the first index holding the id, or reports that no task carries it. |
| TaskManager.ReplaceAt | js/task.js:91-96 | An update request carrying the record is made. On failure nothing changes. On success only the slot at the index changes, to the server's record; the length, every other slot and the filter are kept. The store is then saved: local storage is neither created nor removed, and the cache equals the list. |
| TaskManager.ToggleTaskCompletion | js/task.js:77-104 | An absent id fails with not-found, makes no remote call and changes nothing. Otherwise the record sent is the first matching task with only `completed` negated. On failure nothing changes. On success that one slot holds the server's record and the store is persisted. |
| TaskManager.UpdateTask | js/task.js:107-135 | An absent id fails with not-found, makes no remote call and changes nothing. Otherwise the record sent is the first matching task with every patched key taken from the patch, every other key kept, and `updatedAt` set to the timestamp. On failure nothing changes; on success only that slot is replaced and the store is persisted. |
| Tasks.Merge | js/task.js:86-89 | `{...task, ...patch}` takes every key present in the patch from the patch and keeps every other key of the task. |
| Tasks.Overlay | js/task.js:116-120 | `{...p, ...q}` on two partial records: spreading `p` and then `q` over any task equals spreading their overlay once. |
| Tasks.MergeSpread | js/task.js:116-120 | Spreading a patch over a task takes each present key from the patch and each absent key from the task. It is the only record that does so. |
| Tasks.MergeOverlay | js/task.js:116-120 | Two spreads in a row equal one spread of the two patches overlaid, so `{...task, ...patch, updatedAt}` is a single spread. |
| TaskManager.DeleteTask | js/task.js:138-153 | A delete request is always made first. On failure nothing changes. On success no task with the id remains, every other task is kept, no new task appears, an absent id leaves the list as it was, and the filter is kept. The store is then saved: local storage is neither created nor removed, and the cache equals the list. |
| StoreProperties.DeleteKeepsOrder | js/task.js:144 | After a successful delete, the list is the tasks with other ids, taken at ascending indices of the old list. |
| StoreProperties.DeleteRemovesOne | js/task.js:144 | When ids are unique and the id is present, a successful delete removes exactly that one record and the list shrinks by one. |
| StoreProperties.AddThenDeleteRestores | js/task.js:55-66 | Adding a task under a fresh id and then deleting that id gives back the original list. |
| StoreProperties.ToggleTwiceRestores | js/task.js:77-96 | If the server stores what it is sent, toggling a task twice sends back the original record and restores the list, with the cache in step. |
| TaskManager.Persist | js/task.js:156-161 | Saving keeps the list and filter. It neither creates nor removes local storage. Afterwards the cache equals the list. |
| TaskManager.RefreshTasks | js/task.js:164-174 | A fetch request is always made. On failure nothing changes. On success the store is the old store with the fetched list, saved: the filter is kept, local storage is neither created nor removed, and the cache equals the list. The result is the view under the current filter. |
| StoreProperties.OperationsKeepCacheInSync | js/task.js:15-174 | Starting from a store whose cache equals its list, every operation (`init`, `setFilter`, `addTask`, `toggleTaskCompletion`, `updateTask`, `deleteTask`, `refreshTasks` and `saveToLocalStorage`) keeps that true, whether it succeeds or fails. |
| StoreProperties.ReloadFromCache | js/task.js:18-19 | A new store started on the storage of a store whose cache equals its list loads that same list, with no remote call. |
| Filtering.Filter | js/task.js:38 | `Array.prototype.filter` never returns more elements than its input; `Filtering.FilterMembers` and `Filtering.FilterSelectsInOrder` state which elements it keeps and in what order. |
| Filtering.FilterSelectsInOrder | js/task.js:38 | The filter returns the satisfying elements at ascending indices of the input, and those indices are exactly the satisfying ones. |
| Filtering.FilterPartition | js/task.js:38-40 | A predicate and its negation split a sequence: each element lands in exactly one of the two results. |
| Filtering.FilterDropsOne | js/task.js:144 | If the predicate fails at exactly one index, the filter removes exactly that element. |

## Behaviour of js/task.js worth knowing

- A cache entry that is set but does not parse makes `init` throw (`MalformedCache`). `init` does not then fetch from the remote service, because `JSON.parse` throws inside the same `try` (js/task.js:18-19, 28-31). An empty-string entry is falsy and does lead to a remote fetch.
- `deleteTask` removes every record carrying the id, not just the first (js/task.js:144). The two agree when ids are unique (`StoreProperties.DeleteRemovesOne`).
- `setFilter` stores an unknown filter value as given (`Other(name)`, js/task.js:49). It is never replaced by `all`; it only behaves like `all` in `getFilteredTasks` (js/task.js:36-44).
- `deleteTask` does not check that the id is present (js/task.js:138-153). A successful remote delete of an absent id leaves the list as it was and rewrites the cache.

## Left out

- js/ui.js: DOM rendering, event wiring, prompts, confirmation dialogs, alerts and the loading indicator. The non-empty-title check happens there, before the store is called.
- The remote service (js/api.js is not part of this model): each answer is a parameter of the transition.
- JSON serialisation and the local-storage API. A cached list is `Json(tasks)`, so a write followed by a read round-trips exactly. Text that is valid JSON but not a list (`"5"`, `"null"`) is not distinguished from unparseable text.
- Failures of `localStorage.setItem` (such as an exceeded quota). In the source, such a failure would surface after the list was already changed.
- Interleaving of concurrent operations. The index found before the remote call is reused after it. If the list changes in between, a concurrent delete can make that index point at another record; the model runs each operation on its own.
- Logging (`console.log`, `console.error`), and JavaScript's treatment of a non-boolean `completed` as truthy (the model's `completed` is a `bool`).
- TaskManager.Init: a parsed cache entry is only ever a list of well-formed tasks; whatever else `JSON.parse` could yield is not modelled.
- TaskManager.Blob: a `Text(raw)` entry stands for text that does not parse as a task list. The type does not rule out `Text("[]")` or other serialised lists; the store never writes one, and the model treats each as a malformed cache.
- TaskManager.FilterMode: an `Other(name)` whose name is `all`, `active` or `completed` is a value of the type, but `ParseFilter`, and so `SetFilter`, never produces one.
