/** Properties of the task store that relate several operations, or relate
    an operation to an independent description of its result. */
module StoreProperties {
  import opened Wrappers
  import opened Tasks
  import opened TaskManager
  import Filtering

  /** The `active` and `completed` views are the incomplete and the completed
      tasks, each in list order. */
  lemma FilteredViewsKeepOrder(s: Store)
    ensures s.filter.Active? ==> Filtering.SelectsInOrder(GetFilteredTasks(s), s.tasks, IsActive)
    ensures s.filter.Completed? ==> Filtering.SelectsInOrder(GetFilteredTasks(s), s.tasks, IsDone)
  {
    Filtering.FilterSelectsInOrder(s.tasks, IsActive);
    Filtering.FilterSelectsInOrder(s.tasks, IsDone);
  }

  /** Every task appears in exactly one of the `active` and `completed` views. */
  lemma {:induction false} ViewsPartitionTasks(s: Store)
    ensures var active := GetFilteredTasks(s.(filter := Active));
            var done := GetFilteredTasks(s.(filter := Completed));
            && multiset(active) + multiset(done) == multiset(s.tasks)
            && |active| + |done| == |s.tasks|
  {
    Filtering.FilterPartition(s.tasks, IsActive);
    Filtering.FilterAgrees(s.tasks, Filtering.Negate(IsActive), IsDone);
  }

  /** A successful delete leaves the tasks without that id, in list order. */
  lemma DeleteKeepsOrder(s: Store, id: Id)
    ensures Filtering.SelectsInOrder(DeleteTask(s, id, Ok(())).store.tasks, s.tasks, Survives(id))
  {
    Filtering.FilterSelectsInOrder(s.tasks, Survives(id));
  }

  /** With unique ids, filtering out the id found at `i` removes exactly
      that one record. */
  lemma RemoveUniqueId(tasks: seq<Task>, id: Id, i: nat)
    requires UniqueIds(tasks)
    requires FirstMatch(tasks, id, i)
    ensures Filtering.Filter(tasks, Survives(id)) == tasks[..i] + tasks[i + 1..]
  {
    forall j | 0 <= j < |tasks| && j != i
      ensures Survives(id)(tasks[j])
    {
      if j > i {
        assert tasks[i].id != tasks[j].id;
      }
    }
    Filtering.FilterDropsOne(tasks, i, Survives(id));
  }

  /** With unique ids, a successful delete of a present id removes exactly
      that one record. */
  lemma DeleteRemovesOne(s: Store, id: Id, i: nat)
    requires UniqueIds(s.tasks)
    requires FirstMatch(s.tasks, id, i)
    ensures DeleteTask(s, id, Ok(())).store.tasks == s.tasks[..i] + s.tasks[i + 1..]
    ensures |DeleteTask(s, id, Ok(())).store.tasks| == |s.tasks| - 1
  {
    RemoveUniqueId(s.tasks, id, i);
  }

  /** When the service stores what it is sent, toggling a task twice sends
      back the original record and restores the list. */
  lemma ToggleTwiceRestores(s: Store, id: Id, i: nat)
    requires FirstMatch(s.tasks, id, i)
    ensures var t := s.tasks[i];
            var first := ToggleTaskCompletion(s, id, Ok(t.(completed := !t.completed)));
            var second := ToggleTaskCompletion(first.store, id, Ok(t));
            && second.call == Some(Replace(id, t))
            && second.out == Ok(t)
            && second.store.tasks == s.tasks
            && Mirrors(second.store)
  {
  }

  /** Deleting a task just added (under a fresh id) gives back the old list. */
  lemma {:induction false} AddThenDeleteRestores(s: Store, data: Patch, now: string, created: Task)
    requires Absent(s.tasks, created.id)
    ensures var added := AddTask(s, data, now, Ok(created));
            DeleteTask(added.store, created.id, Ok(())).store.tasks == s.tasks
  {
    Filtering.FilterAppend(s.tasks, [created], Survives(created.id));
    KeepAllWhenAbsent(s.tasks, created.id);
    assert Filtering.Filter([created], Survives(created.id)) == [];
  }

  /** A store whose cache mirrors its list reloads that same list, without a
      remote call, when a new store starts on the same local storage. */
  lemma ReloadFromCache(s: Store, fetched: Result<seq<Task>, string>)
    requires Mirrors(s) && s.storage.Available?
    ensures var r := Init(NewStore(s.storage), fetched);
            r.call.None? && r.out == Ok(s.tasks) && r.store.tasks == s.tasks
  {
  }

  /** Every operation keeps the cache in step with the list: a success
      rewrites it and a failure touches nothing. */
  lemma OperationsKeepCacheInSync(s: Store, id: Id, data: Patch, now: string,
                                  task: Result<Task, string>, list: Result<seq<Task>, string>,
                                  ack: Result<(), string>, name: string)
    requires Mirrors(s)
    ensures Mirrors(SetFilter(s, name).0)
    ensures Mirrors(Persist(s))
    ensures Mirrors(Init(s, list).store)
    ensures Mirrors(AddTask(s, data, now, task).store)
    ensures Mirrors(ToggleTaskCompletion(s, id, task).store)
    ensures Mirrors(UpdateTask(s, id, data, now, task).store)
    ensures Mirrors(DeleteTask(s, id, ack).store)
    ensures Mirrors(RefreshTasks(s, list).store)
  {
  }

  /** Re-selecting the filter a store already has, by its name, changes
      neither the store nor its view. (An `Other` filter spelled like a known
      one cannot arise from `SetFilter`, and is excluded.) */
  lemma ReselectFilter(s: Store)
    requires s.filter.Other? ==> ParseFilter(s.filter.name).Other?
    ensures SetFilter(s, FilterName(s.filter)).0 == s
    ensures SetFilter(s, FilterName(s.filter)).1 == GetFilteredTasks(s)
  {
  }
}
