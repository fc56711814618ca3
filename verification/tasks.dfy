/** The task record and the partial records the store sends and merges.
    A JavaScript object spread `{...a, ...b}` copies every key of `a` and
    then lets every key present in `b` override it; `Merge` and `Overlay`
    model that for a full task and for two partial records. */
module Tasks {
  import opened Wrappers

  /** The identifier the remote service assigns; compared with `===`. */
  type Id = string

  /** One to-do record as the remote service returns it. Nullable or
      omittable fields (description, due date, timestamps) are `Option`s. */
  datatype Task = Task(
    id: Id,
    title: string,
    description: Option<string>,
    dueDate: Option<string>,
    completed: bool,
    createdAt: Option<string>,
    updatedAt: Option<string>)

  /** A partial task record: `None` means the key is absent, `Some(v)` that
      it is present with value `v` (for a nullable field `v` may itself be
      `None`, the JSON `null`). */
  datatype Patch = Patch(
    id: Option<Id>,
    title: Option<string>,
    description: Option<Option<string>>,
    dueDate: Option<Option<string>>,
    completed: Option<bool>,
    createdAt: Option<Option<string>>,
    updatedAt: Option<Option<string>>)

  /** The partial record with no keys at all (`{}`). */
  const NoChange := Patch(None, None, None, None, None, None, None)

  /** A key present in `over` wins, an absent one keeps `under`. */
  function Pick<T>(under: Option<T>, over: Option<T>): Option<T> {
    if over.Some? then over else under
  }

  /** `{...t, ...p}`: the task `t` with every key present in `p` overriding it. */
  function Merge(t: Task, p: Patch): (r: Task)
    ensures Agrees(p, r) && SameOutside(p, t, r)
  {
    Task(p.id.GetOr(t.id), p.title.GetOr(t.title), p.description.GetOr(t.description),
         p.dueDate.GetOr(t.dueDate), p.completed.GetOr(t.completed),
         p.createdAt.GetOr(t.createdAt), p.updatedAt.GetOr(t.updatedAt))
  }

  /** `{...p, ...q}` on two partial records. */
  function Overlay(p: Patch, q: Patch): (r: Patch)
    ensures forall t: Task :: Merge(Merge(t, p), q) == Merge(t, r)
  {
    Patch(Pick(p.id, q.id), Pick(p.title, q.title), Pick(p.description, q.description),
          Pick(p.dueDate, q.dueDate), Pick(p.completed, q.completed),
          Pick(p.createdAt, q.createdAt), Pick(p.updatedAt, q.updatedAt))
  }

  /** Every key present in `p` has the same value in `t`. */
  predicate Agrees(p: Patch, t: Task) {
    && (p.id.Some? ==> p.id.value == t.id)
    && (p.title.Some? ==> p.title.value == t.title)
    && (p.description.Some? ==> p.description.value == t.description)
    && (p.dueDate.Some? ==> p.dueDate.value == t.dueDate)
    && (p.completed.Some? ==> p.completed.value == t.completed)
    && (p.createdAt.Some? ==> p.createdAt.value == t.createdAt)
    && (p.updatedAt.Some? ==> p.updatedAt.value == t.updatedAt)
  }

  /** `t` and `u` agree on every key that `p` leaves absent. */
  predicate SameOutside(p: Patch, t: Task, u: Task) {
    && (p.id.None? ==> t.id == u.id)
    && (p.title.None? ==> t.title == u.title)
    && (p.description.None? ==> t.description == u.description)
    && (p.dueDate.None? ==> t.dueDate == u.dueDate)
    && (p.completed.None? ==> t.completed == u.completed)
    && (p.createdAt.None? ==> t.createdAt == u.createdAt)
    && (p.updatedAt.None? ==> t.updatedAt == u.updatedAt)
  }

  /** The spread semantics: merging `p` into `t` takes every key `p` has
      from `p` and every other key from `t` (as `Merge` itself ensures), and
      is the only task that does. */
  lemma MergeSpread(t: Task, p: Patch, u: Task)
    ensures Agrees(p, Merge(t, p)) && SameOutside(p, t, Merge(t, p))
    ensures Agrees(p, u) && SameOutside(p, t, u) ==> u == Merge(t, p)
  {
  }

  /** Two spreads in a row are one spread of the overlaid records:
      `{...{...t, ...p}, ...q} == {...t, ...{...p, ...q}}`. This is
      `Overlay`'s own postcondition for a single task, stated as a law. */
  lemma MergeOverlay(t: Task, p: Patch, q: Patch)
    ensures Merge(Merge(t, p), q) == Merge(t, Overlay(p, q))
  {
  }
}
