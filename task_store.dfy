/** The task handlers of routes/tasks.js over an in-memory collection.
    Every single-task store call is modelled as one atomic function over the
    sequence of stored tasks (FindOne, UpdateOne, DeleteOne); each handler
    has a step function giving its response and the new collection, and the
    class TaskStore performs the handlers in place. */
module TaskStore {
  import opened Wrappers
  import opened Text
  import opened TaskModel
  import opened Dashboard

  /** The filter of a single-task query: `{ _id: id, user: owner, status: { $in: statuses } }`. */
  datatype Query = Query(id: TaskId, owner: UserId, statuses: set<Status>)

  const AnyStatus: set<Status> := {Pending, Completed, Deleted}
  const ActiveStatuses: set<Status> := {Pending, Completed}

  lemma EveryStatusIsAny()
    ensures forall s: Status :: s in AnyStatus
    ensures forall s: Status :: s in ActiveStatuses <==> s != Deleted
  {
    forall s: Status ensures s in AnyStatus {
      match s
      case Pending =>
      case Completed =>
      case Deleted =>
    }
  }

  predicate Matches(q: Query, t: Task)
  {
    t.id == q.id && t.owner == q.owner && t.status in q.statuses
  }

  /** The update document of a `findOneAndUpdate`, with the `updatedAt`
      time the schema's timestamps add to it. */
  datatype Patch =
    | SetStatus(status: Status, at: int)
    | Overwrite(title: string, description: string, priority: Priority, status: Status, at: int)

  /** The document after the update. No patch touches `_id`, `user` or `createdAt`. */
  function Apply(p: Patch, t: Task): (u: Task)
    ensures u.id == t.id && u.owner == t.owner && u.createdAt == t.createdAt
    ensures u.status == p.status && u.updatedAt == p.at
    ensures p.SetStatus? ==> u.title == t.title && u.description == t.description && u.priority == t.priority
    ensures p.Overwrite? ==> u.title == p.title && u.description == p.description && u.priority == p.priority
  {
    match p
    case SetStatus(s, at) => t.(status := s, updatedAt := at)
    case Overwrite(title, description, priority, s, at) =>
      t.(title := title, description := description, priority := priority, status := s, updatedAt := at)
  }

  /** `findOne(q)`: a stored task matching the query, or nothing when none does. */
  function FindOne(tasks: seq<Task>, q: Query): (r: Option<Task>)
    ensures r.Some? ==> r.value in tasks && Matches(q, r.value)
    ensures r.None? <==> forall t :: t in tasks ==> !Matches(q, t)
  {
    if tasks == [] then None
    else if Matches(q, tasks[0]) then Some(tasks[0])
    else
      assert tasks == [tasks[0]] + tasks[1..];
      FindOne(tasks[1..], q)
  }

  /** `findOneAndUpdate(q, p)`: the matching task is replaced by its patched
      version, every other task stays as it was. */
  function UpdateOne(tasks: seq<Task>, q: Query, p: Patch): (r: seq<Task>)
    ensures |r| == |tasks|
    ensures forall k :: 0 <= k < |tasks| ==> r[k] == tasks[k] || (Matches(q, tasks[k]) && r[k] == Apply(p, tasks[k]))
    ensures FindOne(tasks, q).None? ==> r == tasks
    ensures FindOne(tasks, q).Some? ==>
              exists k :: 0 <= k < |tasks| && tasks[k] == FindOne(tasks, q).value && r[k] == Apply(p, tasks[k])
    ensures forall k, l :: 0 <= k < l < |tasks| ==> r[k] == tasks[k] || r[l] == tasks[l]
  {
    if tasks == [] then []
    else if Matches(q, tasks[0]) then
      var r := [Apply(p, tasks[0])] + tasks[1..];
      assert r[0] == Apply(p, tasks[0]) && r[1..] == tasks[1..];
      r
    else
      var rest := UpdateOne(tasks[1..], q, p);
      assert tasks == [tasks[0]] + tasks[1..];
      UpdateOneConsFrame(tasks[0], tasks[1..], rest, q, p);
      UpdateOneConsAtMostOne(tasks[0], tasks[1..], rest);
      if FindOne(tasks[1..], q).Some? then
        UpdateOneConsFound(tasks[0], tasks[1..], rest, FindOne(tasks[1..], q).value, p);
        [tasks[0]] + rest
      else
        [tasks[0]] + rest
  }

  // The step of UpdateOne past a task that does not match: each clause of
  // its contract on the rest carries over to the whole sequence.

  lemma UpdateOneConsFrame(t: Task, ts: seq<Task>, rest: seq<Task>, q: Query, p: Patch)
    requires |rest| == |ts|
    requires forall k :: 0 <= k < |ts| ==> rest[k] == ts[k] || (Matches(q, ts[k]) && rest[k] == Apply(p, ts[k]))
    ensures forall k :: 0 <= k < |ts| + 1 ==>
              ([t] + rest)[k] == ([t] + ts)[k] || (Matches(q, ([t] + ts)[k]) && ([t] + rest)[k] == Apply(p, ([t] + ts)[k]))
  {
    forall k | 0 < k < |ts| + 1
      ensures ([t] + rest)[k] == ([t] + ts)[k] || (Matches(q, ([t] + ts)[k]) && ([t] + rest)[k] == Apply(p, ([t] + ts)[k]))
    {
      assert ([t] + rest)[k] == rest[k - 1] && ([t] + ts)[k] == ts[k - 1];
    }
  }

  lemma UpdateOneConsAtMostOne(t: Task, ts: seq<Task>, rest: seq<Task>)
    requires |rest| == |ts|
    requires forall k, l :: 0 <= k < l < |ts| ==> rest[k] == ts[k] || rest[l] == ts[l]
    ensures forall k, l :: 0 <= k < l < |ts| + 1 ==> ([t] + rest)[k] == ([t] + ts)[k] || ([t] + rest)[l] == ([t] + ts)[l]
  {
    forall k, l | 0 < k < l < |ts| + 1
      ensures ([t] + rest)[k] == ([t] + ts)[k] || ([t] + rest)[l] == ([t] + ts)[l]
    {
      assert ([t] + rest)[k] == rest[k - 1] && ([t] + ts)[k] == ts[k - 1];
      assert ([t] + rest)[l] == rest[l - 1] && ([t] + ts)[l] == ts[l - 1];
    }
  }

  lemma UpdateOneConsFound(t: Task, ts: seq<Task>, rest: seq<Task>, found: Task, p: Patch)
    requires |rest| == |ts|
    requires exists k :: 0 <= k < |ts| && ts[k] == found && rest[k] == Apply(p, ts[k])
    ensures exists k :: 0 <= k < |ts| + 1 && ([t] + ts)[k] == found && ([t] + rest)[k] == Apply(p, ([t] + ts)[k])
  {
    var k :| 0 <= k < |ts| && ts[k] == found && rest[k] == Apply(p, ts[k]);
    assert ([t] + rest)[k + 1] == rest[k] && ([t] + ts)[k + 1] == ts[k];
  }

  /** `findOneAndDelete(q)`: exactly the task FindOne returns is removed. */
  function DeleteOne(tasks: seq<Task>, q: Query): (r: seq<Task>)
    ensures FindOne(tasks, q).None? ==> r == tasks
    ensures FindOne(tasks, q).Some? ==> multiset(r) == multiset(tasks) - multiset{FindOne(tasks, q).value}
    ensures forall t :: t in r ==> t in tasks
  {
    if tasks == [] then []
    else if Matches(q, tasks[0]) then
      assert tasks == [tasks[0]] + tasks[1..];
      tasks[1..]
    else
      assert tasks == [tasks[0]] + tasks[1..];
      [tasks[0]] + DeleteOne(tasks[1..], q)
  }

  /** The tasks of one user, in store order. */
  function Owned(tasks: seq<Task>, owner: UserId): (r: seq<Task>)
    ensures forall t :: t in r <==> t in tasks && t.owner == owner
  {
    if tasks == [] then []
    else
      assert tasks == [tasks[0]] + tasks[1..];
      if tasks[0].owner == owner then [tasks[0]] + Owned(tasks[1..], owner)
      else Owned(tasks[1..], owner)
  }

  lemma OwnedCons(t: Task, rest: seq<Task>, owner: UserId)
    ensures Owned([t] + rest, owner) == if t.owner == owner then [t] + Owned(rest, owner) else Owned(rest, owner)
  {
    assert ([t] + rest)[1..] == rest;
  }

  // ---------------------------------------------------------------------
  // The store primitives only ever see the caller's own tasks.

  lemma {:induction false} OwnedAppend(a: seq<Task>, b: seq<Task>, owner: UserId)
    ensures Owned(a + b, owner) == Owned(a, owner) + Owned(b, owner)
  {
    if a != [] {
      OwnedAppend(a[1..], b, owner);
      assert a + b == [a[0]] + (a[1..] + b);
      OwnedCons(a[0], a[1..] + b, owner);
      if a[0].owner == owner {
        assert [a[0]] + Owned(a[1..], owner) + Owned(b, owner) == [a[0]] + (Owned(a[1..], owner) + Owned(b, owner));
      }
    } else {
      assert a + b == b;
    }
  }

  /** A lookup scoped on the owner finds the same task in the whole store
      as in the owner's own tasks. */
  lemma {:induction false} FindOneScoped(tasks: seq<Task>, q: Query)
    ensures FindOne(Owned(tasks, q.owner), q) == FindOne(tasks, q)
  {
    if tasks != [] {
      var t, rest := tasks[0], tasks[1..];
      FindOneScoped(rest, q);
      if t.owner == q.owner {
        var o := [t] + Owned(rest, q.owner);
        assert o[0] == t && o[1..] == Owned(rest, q.owner);
      }
    }
  }

  lemma {:induction false} UpdateOneScoped(tasks: seq<Task>, q: Query, p: Patch)
    ensures Owned(UpdateOne(tasks, q, p), q.owner) == UpdateOne(Owned(tasks, q.owner), q, p)
  {
    if tasks != [] {
      var t, rest := tasks[0], tasks[1..];
      if Matches(q, t) {
        OwnedCons(Apply(p, t), rest, q.owner);
        var o := [t] + Owned(rest, q.owner);
        assert o[0] == t && o[1..] == Owned(rest, q.owner);
      } else {
        UpdateOneScoped(rest, q, p);
        OwnedCons(t, UpdateOne(rest, q, p), q.owner);
        if t.owner == q.owner {
          var o := [t] + Owned(rest, q.owner);
          assert o[0] == t && o[1..] == Owned(rest, q.owner);
        }
      }
    }
  }

  lemma {:induction false} UpdateOneOthers(tasks: seq<Task>, q: Query, p: Patch, other: UserId)
    requires other != q.owner
    ensures Owned(UpdateOne(tasks, q, p), other) == Owned(tasks, other)
  {
    if tasks != [] {
      var t, rest := tasks[0], tasks[1..];
      if Matches(q, t) {
        OwnedCons(Apply(p, t), rest, other);
      } else {
        UpdateOneOthers(rest, q, p, other);
        OwnedCons(t, UpdateOne(rest, q, p), other);
      }
    }
  }

  lemma {:induction false} DeleteOneScoped(tasks: seq<Task>, q: Query)
    ensures Owned(DeleteOne(tasks, q), q.owner) == DeleteOne(Owned(tasks, q.owner), q)
  {
    if tasks != [] {
      var t, rest := tasks[0], tasks[1..];
      if t.owner == q.owner {
        var o := [t] + Owned(rest, q.owner);
        assert o[0] == t && o[1..] == Owned(rest, q.owner);
      }
      if !Matches(q, t) {
        DeleteOneScoped(rest, q);
        OwnedCons(t, DeleteOne(rest, q), q.owner);
      }
    }
  }

  lemma {:induction false} DeleteOneOthers(tasks: seq<Task>, q: Query, other: UserId)
    requires other != q.owner
    ensures Owned(DeleteOne(tasks, q), other) == Owned(tasks, other)
  {
    if tasks != [] {
      var t, rest := tasks[0], tasks[1..];
      if !Matches(q, t) {
        DeleteOneOthers(rest, q, other);
        OwnedCons(t, DeleteOne(rest, q), other);
      }
    }
  }

  lemma {:induction false} SelectScoped(tasks: seq<Task>, owner: UserId, filter: string)
    ensures Select(Owned(tasks, owner), owner, filter) == Select(tasks, owner, filter)
  {
    if tasks != [] {
      var t, rest := tasks[0], tasks[1..];
      SelectScoped(rest, owner, filter);
      if t.owner == owner {
        var o := [t] + Owned(rest, owner);
        assert o[0] == t && o[1..] == Owned(rest, owner);
      }
    }
  }

  lemma {:induction false} CountScoped(tasks: seq<Task>, owner: UserId, statuses: set<Status>)
    ensures CountWhere(Owned(tasks, owner), owner, statuses) == CountWhere(tasks, owner, statuses)
  {
    if tasks != [] {
      var t, rest := tasks[0], tasks[1..];
      CountScoped(rest, owner, statuses);
      if t.owner == owner {
        var o := [t] + Owned(rest, owner);
        assert o[0] == t && o[1..] == Owned(rest, owner);
      }
    }
  }

  // ---------------------------------------------------------------------
  // The handlers as functions from the stored tasks to a response and the new store.

  datatype TaskError =
    | TitleRequired          // "Task title is required"
    | SaveFailed             // "Failed to create task": the document failed schema validation
    | InvalidStatus          // HTTP 400 "Invalid status"
    | NotFound               // HTTP 404 / "Task not found"
    | NotFoundOrNotDeleted   // "Task not found or cannot be deleted"
  {
    function Message(): string
    {
      match this
      case TitleRequired => "Task title is required"
      case SaveFailed => "Failed to create task"
      case InvalidStatus => "Invalid status"
      case NotFound => "Task not found"
      case NotFoundOrNotDeleted => "Task not found or cannot be deleted"
    }
  }

  /** What a handler answers, and the collection it leaves behind. */
  datatype Step<R> = Step(response: R, tasks: seq<Task>)

  /** `priority || 'medium'`. */
  function PriorityField(priority: Option<string>): (name: string)
    ensures Truthy(priority) ==> name == priority.value
    ensures !Truthy(priority) ==> name == PriorityName(DefaultPriority)
  {
    if Truthy(priority) then priority.value else PriorityName(DefaultPriority)
  }

  /** The new document is made of the trimmed title, the trimmed description
      (empty when absent), the priority name (medium when absent) and the
      caller as owner; `save()` then applies the schema's checks to it. */
  function BuildTask(id: TaskId, owner: UserId, title: string, description: Option<string>,
                     priority: Option<string>, now: int): (r: Option<Task>)
    ensures r.Some? <==>
      && Trim(title) != ""
      && |Trim(title)| <= MaxTitleLength
      && |Trim(OrEmpty(description))| <= MaxDescriptionLength
      && ParsePriority(PriorityField(priority)).Some?
    ensures r.Some? ==>
      && ValidTask(r.value)
      && r.value.id == id && r.value.owner == owner
      && r.value.title == Trim(title)
      && r.value.description == Trim(OrEmpty(description))
      && (!Truthy(description) ==> r.value.description == DefaultDescription)
      && PriorityName(r.value.priority) == PriorityField(priority)
      && r.value.status == DefaultStatus
      && r.value.createdAt == now && r.value.updatedAt == now
  {
    var t := Trim(title);
    var d := Trim(OrEmpty(description));
    var p := ParsePriority(PriorityField(priority));
    if t != "" && |t| <= MaxTitleLength && |d| <= MaxDescriptionLength && p.Some? then
      Some(Task(id, t, d, DefaultStatus, p.value, owner, now, now))
    else
      None
  }

  /** POST /tasks. A missing or blank title is refused before anything is
      built; a document the schema rejects is not saved; otherwise exactly
      one task, owned by the caller and pending, is added. */
  function CreateStep(tasks: seq<Task>, id: TaskId, owner: UserId, title: Option<string>,
                      description: Option<string>, priority: Option<string>, now: int): (s: Step<Result<Task, TaskError>>)
    ensures Blank(title) ==> s == Step(Failure(TitleRequired), tasks)
    ensures !Blank(title) && BuildTask(id, owner, title.value, description, priority, now).None? ==>
              s == Step(Failure(SaveFailed), tasks)
    ensures s.response.Success? <==> !Blank(title) && BuildTask(id, owner, title.value, description, priority, now).Some?
    ensures s.response.Success? ==>
              && s.response.value == BuildTask(id, owner, title.value, description, priority, now).value
              && s.tasks == tasks + [s.response.value]
              && s.response.value.owner == owner
              && s.response.value.status == Pending
              && s.response.value.title == Trim(title.value)
  {
    if Blank(title) then Step(Failure(TitleRequired), tasks)
    else
      match BuildTask(id, owner, title.value, description, priority, now)
      case None => Step(Failure(SaveFailed), tasks)
      case Some(t) => Step(Success(t), tasks + [t])
  }

  predicate StatusAccepted(status: Option<string>)
  {
    status.Some? && ParseStatus(status.value).Some?
  }

  /** POST /tasks/:id/status. The status string is checked before the store is
      touched; then the one call scoped on id and owner sets the status and
      nothing else. There is no transition table: any of the three statuses
      may follow any other. */
  function StatusStep(tasks: seq<Task>, id: TaskId, owner: UserId, status: Option<string>, now: int): (s: Step<Result<Task, TaskError>>)
    ensures !StatusAccepted(status) ==> s == Step(Failure(InvalidStatus), tasks)
    ensures s.response.Failure? ==> s.tasks == tasks
    ensures s.response.Success? <==>
              StatusAccepted(status) && exists t :: t in tasks && t.id == id && t.owner == owner
    ensures StatusAccepted(status) && s.response.Failure? ==> s.response.error == NotFound
    ensures s.response.Success? ==>
              && s.response.value in s.tasks
              && s.response.value.id == id && s.response.value.owner == owner
              && StatusName(s.response.value.status) == status.value
    ensures StatusAccepted(status) ==>
              && |s.tasks| == |tasks|
              && forall k :: 0 <= k < |tasks| ==>
                   s.tasks[k] == tasks[k]
                   || (tasks[k].id == id && tasks[k].owner == owner
                       && s.tasks[k] == tasks[k].(status := ParseStatus(status.value).value, updatedAt := now))
    ensures s.response.Success? ==>
              exists k :: 0 <= k < |tasks| && tasks[k].id == id && tasks[k].owner == owner
                          && s.response.value == s.tasks[k] == tasks[k].(status := ParseStatus(status.value).value, updatedAt := now)
    ensures StatusAccepted(status) ==>
              forall k, l :: 0 <= k < l < |tasks| ==> s.tasks[k] == tasks[k] || s.tasks[l] == tasks[l]
  {
    if !StatusAccepted(status) then Step(Failure(InvalidStatus), tasks)
    else
      var q := Query(id, owner, AnyStatus);
      var p := SetStatus(ParseStatus(status.value).value, now);
      EveryStatusIsAny();
      match FindOne(tasks, q)
      case None => Step(Failure(NotFound), tasks)
      case Some(t) => Step(Success(Apply(p, t)), UpdateOne(tasks, q, p))
  }

  /** POST /tasks/:id/delete. The delete is scoped on id, owner AND status
      "deleted": it removes the task iff all three hold, and otherwise
      changes nothing and reports one error for every reason. */
  function PurgeStep(tasks: seq<Task>, id: TaskId, owner: UserId): (s: Step<Result<Task, TaskError>>)
    ensures s.response.Success? <==>
              exists t :: t in tasks && t.id == id && t.owner == owner && t.status == Deleted
    ensures s.response.Failure? ==> s == Step(Failure(NotFoundOrNotDeleted), tasks)
    ensures s.response.Success? ==>
              && s.response.value in tasks
              && s.response.value.id == id && s.response.value.owner == owner
              && s.response.value.status == Deleted
              && multiset(s.tasks) == multiset(tasks) - multiset{s.response.value}
  {
    var q := Query(id, owner, {Deleted});
    match FindOne(tasks, q)
    case None => Step(Failure(NotFoundOrNotDeleted), tasks)
    case Some(t) => Step(Success(t), DeleteOne(tasks, q))
  }

  /** GET /tasks/:id/edit: only the caller's pending or completed tasks are found. */
  function EditFormLookup(tasks: seq<Task>, id: TaskId, owner: UserId): (r: Option<Task>)
    ensures r.Some? <==> exists t :: t in tasks && t.id == id && t.owner == owner && t.status != Deleted
    ensures r.Some? ==> r.value in tasks && r.value.id == id && r.value.owner == owner && r.value.status != Deleted
  {
    EveryStatusIsAny();
    FindOne(tasks, Query(id, owner, ActiveStatuses))
  }

  /** POST /tasks/:id/edit. A blank title is refused with no change; otherwise
      the call scoped on id and owner (any status: unlike the form, this part
      does NOT exclude deleted tasks) overwrites title, description, priority
      and status. The schema's length limits are not applied on this path. */
  function EditStep(tasks: seq<Task>, id: TaskId, owner: UserId, title: Option<string>,
                    description: Option<string>, priority: Priority, status: Status, now: int): (s: Step<Result<Task, TaskError>>)
    ensures Blank(title) ==> s == Step(Failure(TitleRequired), tasks)
    ensures s.response.Failure? ==> s.tasks == tasks
    ensures s.response.Success? <==>
              !Blank(title) && exists t :: t in tasks && t.id == id && t.owner == owner
    ensures !Blank(title) && s.response.Failure? ==> s.response.error == NotFound
    ensures s.response.Success? ==>
              && s.response.value in s.tasks
              && s.response.value.id == id && s.response.value.owner == owner
              && s.response.value.title == Trim(title.value)
              && s.response.value.description == Trim(OrEmpty(description))
              && s.response.value.priority == priority
              && s.response.value.status == status
    ensures !Blank(title) ==>
              && |s.tasks| == |tasks|
              && forall k :: 0 <= k < |tasks| ==>
                   s.tasks[k] == tasks[k]
                   || (tasks[k].id == id && tasks[k].owner == owner
                       && s.tasks[k] == Apply(Overwrite(Trim(title.value), Trim(OrEmpty(description)), priority, status, now), tasks[k]))
    ensures s.response.Success? ==>
              exists k :: 0 <= k < |tasks| && tasks[k].id == id && tasks[k].owner == owner
                          && s.response.value == s.tasks[k]
                          == Apply(Overwrite(Trim(title.value), Trim(OrEmpty(description)), priority, status, now), tasks[k])
    ensures !Blank(title) ==>
              forall k, l :: 0 <= k < l < |tasks| ==> s.tasks[k] == tasks[k] || s.tasks[l] == tasks[l]
  {
    if Blank(title) then Step(Failure(TitleRequired), tasks)
    else
      var q := Query(id, owner, AnyStatus);
      var p := Overwrite(Trim(title.value), Trim(OrEmpty(description)), priority, status, now);
      EveryStatusIsAny();
      match FindOne(tasks, q)
      case None => Step(Failure(NotFound), tasks)
      case Some(t) => Step(Success(Apply(p, t)), UpdateOne(tasks, q, p))
  }

  // ---------------------------------------------------------------------
  // The invariant every handler keeps.

  /** What every stored task keeps through all handlers: a non-empty trimmed
      title and a trimmed description. The schema's length limits are only
      guaranteed for documents that went through `save()`. */
  predicate WellFormed(t: Task)
  {
    t.title != "" && Unpadded(t.title) && Unpadded(t.description)
  }

  /** Ids are distinct and below the next id to hand out; every task is well formed. */
  predicate StoreInvariant(tasks: seq<Task>, nextId: TaskId)
  {
    && (forall k :: 0 <= k < |tasks| ==> tasks[k].id < nextId && WellFormed(tasks[k]))
    && (forall i, j :: 0 <= i < j < |tasks| ==> tasks[i].id != tasks[j].id)
  }

  lemma CreatePreserves(tasks: seq<Task>, nextId: TaskId, owner: UserId, title: Option<string>,
                        description: Option<string>, priority: Option<string>, now: int)
    requires StoreInvariant(tasks, nextId)
    ensures var s := CreateStep(tasks, nextId, owner, title, description, priority, now);
            StoreInvariant(s.tasks, if s.response.Success? then nextId + 1 else nextId)
  {
    var s := CreateStep(tasks, nextId, owner, title, description, priority, now);
    if s.response.Success? {
      var t := s.response.value;
      assert t.id == nextId && WellFormed(t);
      var r := tasks + [t];
      forall i, j | 0 <= i < j < |r| ensures r[i].id != r[j].id {
        if j == |tasks| {
          assert r[i] == tasks[i];
        }
      }
    }
  }

  lemma StatusPreserves(tasks: seq<Task>, nextId: TaskId, id: TaskId, owner: UserId, status: Option<string>, now: int)
    requires StoreInvariant(tasks, nextId)
    ensures StoreInvariant(StatusStep(tasks, id, owner, status, now).tasks, nextId)
  {
    var r := StatusStep(tasks, id, owner, status, now).tasks;
    if StatusAccepted(status) {
      assert forall k :: 0 <= k < |r| ==>
        r[k].id == tasks[k].id && r[k].title == tasks[k].title && r[k].description == tasks[k].description;
    }
  }

  lemma EditPreserves(tasks: seq<Task>, nextId: TaskId, id: TaskId, owner: UserId, title: Option<string>,
                      description: Option<string>, priority: Priority, status: Status, now: int)
    requires StoreInvariant(tasks, nextId)
    ensures StoreInvariant(EditStep(tasks, id, owner, title, description, priority, status, now).tasks, nextId)
  {
    var r := EditStep(tasks, id, owner, title, description, priority, status, now).tasks;
    if !Blank(title) {
      forall k | 0 <= k < |r| ensures r[k].id == tasks[k].id && WellFormed(r[k]) {
        assert WellFormed(tasks[k]);
      }
    }
  }

  /** With distinct ids, a successful status change rewrites exactly the
      one stored task with that id, into the document it returns. */
  lemma StatusRewritesThatTask(tasks: seq<Task>, nextId: TaskId, id: TaskId, owner: UserId,
                               status: Option<string>, now: int)
    requires StoreInvariant(tasks, nextId)
    ensures var s := StatusStep(tasks, id, owner, status, now);
            s.response.Success? ==>
              forall k :: 0 <= k < |tasks| ==> s.tasks[k] == if tasks[k].id == id then s.response.value else tasks[k]
  {
    var s := StatusStep(tasks, id, owner, status, now);
    if s.response.Success? {
      var j :| 0 <= j < |tasks| && tasks[j].id == id && tasks[j].owner == owner
               && s.response.value == s.tasks[j] == tasks[j].(status := ParseStatus(status.value).value, updatedAt := now);
      forall k | 0 <= k < |tasks|
        ensures s.tasks[k] == if tasks[k].id == id then s.response.value else tasks[k]
      {
        if k != j {
          assert tasks[k].id != tasks[j].id;
        }
      }
    }
  }

  /** With distinct ids, a successful edit rewrites exactly the one stored
      task with that id, into the document it returns. */
  lemma EditRewritesThatTask(tasks: seq<Task>, nextId: TaskId, id: TaskId, owner: UserId, title: Option<string>,
                             description: Option<string>, priority: Priority, status: Status, now: int)
    requires StoreInvariant(tasks, nextId)
    ensures var s := EditStep(tasks, id, owner, title, description, priority, status, now);
            s.response.Success? ==>
              forall k :: 0 <= k < |tasks| ==> s.tasks[k] == if tasks[k].id == id then s.response.value else tasks[k]
  {
    var s := EditStep(tasks, id, owner, title, description, priority, status, now);
    if s.response.Success? {
      var j :| 0 <= j < |tasks| && tasks[j].id == id && tasks[j].owner == owner
               && s.response.value == s.tasks[j]
               == Apply(Overwrite(Trim(title.value), Trim(OrEmpty(description)), priority, status, now), tasks[j]);
      forall k | 0 <= k < |tasks|
        ensures s.tasks[k] == if tasks[k].id == id then s.response.value else tasks[k]
      {
        if k != j {
          assert tasks[k].id != tasks[j].id;
        }
      }
    }
  }

  lemma InvariantTail(tasks: seq<Task>, nextId: TaskId)
    requires StoreInvariant(tasks, nextId) && tasks != []
    ensures StoreInvariant(tasks[1..], nextId)
    ensures forall x :: x in tasks[1..] ==> x.id != tasks[0].id
  {
    var rest := tasks[1..];
    forall i, j | 0 <= i < j < |rest| ensures rest[i].id != rest[j].id {
      assert rest[i] == tasks[i + 1] && rest[j] == tasks[j + 1];
    }
    forall x | x in rest ensures x.id != tasks[0].id {
      var k :| 0 <= k < |rest| && rest[k] == x;
      assert tasks[k + 1] == x;
    }
  }

  lemma InvariantCons(t: Task, d: seq<Task>, nextId: TaskId)
    requires StoreInvariant(d, nextId) && t.id < nextId && WellFormed(t)
    requires forall x :: x in d ==> x.id != t.id
    ensures StoreInvariant([t] + d, nextId)
  {
    var r := [t] + d;
    forall i, j | 0 <= i < j < |r| ensures r[i].id != r[j].id {
      assert r[j] == d[j - 1];
      if i > 0 {
        assert r[i] == d[i - 1];
      }
    }
    forall k | 0 < k < |r| ensures r[k].id < nextId && WellFormed(r[k]) {
      assert r[k] == d[k - 1];
    }
  }

  lemma {:induction false} DeleteOnePreserves(tasks: seq<Task>, nextId: TaskId, q: Query)
    requires StoreInvariant(tasks, nextId)
    ensures StoreInvariant(DeleteOne(tasks, q), nextId)
  {
    if tasks != [] {
      InvariantTail(tasks, nextId);
      if !Matches(q, tasks[0]) {
        DeleteOnePreserves(tasks[1..], nextId, q);
        InvariantCons(tasks[0], DeleteOne(tasks[1..], q), nextId);
      }
    }
  }

  lemma PurgePreserves(tasks: seq<Task>, nextId: TaskId, id: TaskId, owner: UserId)
    requires StoreInvariant(tasks, nextId)
    ensures StoreInvariant(PurgeStep(tasks, id, owner).tasks, nextId)
  {
    DeleteOnePreserves(tasks, nextId, Query(id, owner, {Deleted}));
  }

  // ---------------------------------------------------------------------
  // Ownership scoping: what one user sees and changes depends only on that
  // user's own tasks, and nothing a user does touches another user's tasks.

  lemma DashboardIsolated(t1: seq<Task>, t2: seq<Task>, owner: UserId, filter: string)
    requires Owned(t1, owner) == Owned(t2, owner)
    ensures Select(t1, owner, filter) == Select(t2, owner, filter)
    ensures ComputeStats(t1, owner) == ComputeStats(t2, owner)
  {
    SelectScoped(t1, owner, filter);
    SelectScoped(t2, owner, filter);
    CountScoped(t1, owner, {Pending, Completed});
    CountScoped(t2, owner, {Pending, Completed});
    CountScoped(t1, owner, {Pending});
    CountScoped(t2, owner, {Pending});
    CountScoped(t1, owner, {Completed});
    CountScoped(t2, owner, {Completed});
  }

  lemma CreateIsolated(tasks: seq<Task>, id: TaskId, owner: UserId, title: Option<string>,
                       description: Option<string>, priority: Option<string>, now: int, other: UserId)
    requires other != owner
    ensures var s := CreateStep(tasks, id, owner, title, description, priority, now);
            && Owned(s.tasks, other) == Owned(tasks, other)
            && (s.response.Success? ==> Owned(s.tasks, owner) == Owned(tasks, owner) + [s.response.value])
  {
    var s := CreateStep(tasks, id, owner, title, description, priority, now);
    if s.response.Success? {
      var t := s.response.value;
      OwnedAppend(tasks, [t], other);
      OwnedAppend(tasks, [t], owner);
      OwnedCons(t, [], other);
      OwnedCons(t, [], owner);
    }
  }

  lemma StatusIsolated(t1: seq<Task>, t2: seq<Task>, id: TaskId, owner: UserId, status: Option<string>, now: int)
    requires Owned(t1, owner) == Owned(t2, owner)
    ensures StatusStep(t1, id, owner, status, now).response == StatusStep(t2, id, owner, status, now).response
    ensures Owned(StatusStep(t1, id, owner, status, now).tasks, owner) == Owned(StatusStep(t2, id, owner, status, now).tasks, owner)
  {
    if StatusAccepted(status) {
      var q := Query(id, owner, AnyStatus);
      var p := SetStatus(ParseStatus(status.value).value, now);
      FindOneScoped(t1, q);
      FindOneScoped(t2, q);
      UpdateOneScoped(t1, q, p);
      UpdateOneScoped(t2, q, p);
    }
  }

  lemma StatusLeavesOthers(tasks: seq<Task>, id: TaskId, owner: UserId, status: Option<string>, now: int, other: UserId)
    requires other != owner
    ensures Owned(StatusStep(tasks, id, owner, status, now).tasks, other) == Owned(tasks, other)
  {
    if StatusAccepted(status) {
      UpdateOneOthers(tasks, Query(id, owner, AnyStatus), SetStatus(ParseStatus(status.value).value, now), other);
    }
  }

  lemma PurgeIsolated(t1: seq<Task>, t2: seq<Task>, id: TaskId, owner: UserId)
    requires Owned(t1, owner) == Owned(t2, owner)
    ensures PurgeStep(t1, id, owner).response == PurgeStep(t2, id, owner).response
    ensures Owned(PurgeStep(t1, id, owner).tasks, owner) == Owned(PurgeStep(t2, id, owner).tasks, owner)
  {
    var q := Query(id, owner, {Deleted});
    FindOneScoped(t1, q);
    FindOneScoped(t2, q);
    DeleteOneScoped(t1, q);
    DeleteOneScoped(t2, q);
  }

  lemma PurgeLeavesOthers(tasks: seq<Task>, id: TaskId, owner: UserId, other: UserId)
    requires other != owner
    ensures Owned(PurgeStep(tasks, id, owner).tasks, other) == Owned(tasks, other)
  {
    DeleteOneOthers(tasks, Query(id, owner, {Deleted}), other);
  }

  lemma EditFormIsolated(t1: seq<Task>, t2: seq<Task>, id: TaskId, owner: UserId)
    requires Owned(t1, owner) == Owned(t2, owner)
    ensures EditFormLookup(t1, id, owner) == EditFormLookup(t2, id, owner)
  {
    FindOneScoped(t1, Query(id, owner, ActiveStatuses));
    FindOneScoped(t2, Query(id, owner, ActiveStatuses));
  }

  lemma EditIsolated(t1: seq<Task>, t2: seq<Task>, id: TaskId, owner: UserId, title: Option<string>,
                     description: Option<string>, priority: Priority, status: Status, now: int)
    requires Owned(t1, owner) == Owned(t2, owner)
    ensures EditStep(t1, id, owner, title, description, priority, status, now).response
         == EditStep(t2, id, owner, title, description, priority, status, now).response
    ensures Owned(EditStep(t1, id, owner, title, description, priority, status, now).tasks, owner)
         == Owned(EditStep(t2, id, owner, title, description, priority, status, now).tasks, owner)
  {
    if !Blank(title) {
      var q := Query(id, owner, AnyStatus);
      var p := Overwrite(Trim(title.value), Trim(OrEmpty(description)), priority, status, now);
      FindOneScoped(t1, q);
      FindOneScoped(t2, q);
      UpdateOneScoped(t1, q, p);
      UpdateOneScoped(t2, q, p);
    }
  }

  lemma EditLeavesOthers(tasks: seq<Task>, id: TaskId, owner: UserId, title: Option<string>,
                         description: Option<string>, priority: Priority, status: Status, now: int, other: UserId)
    requires other != owner
    ensures Owned(EditStep(tasks, id, owner, title, description, priority, status, now).tasks, other) == Owned(tasks, other)
  {
    if !Blank(title) {
      UpdateOneOthers(tasks, Query(id, owner, AnyStatus),
                      Overwrite(Trim(title.value), Trim(OrEmpty(description)), priority, status, now), other);
    }
  }

  /** Not owned is the same as not existing: adding another user's task with
      the requested id changes no answer any task handler gives the caller. */
  lemma ForeignTaskIsInvisible(tasks: seq<Task>, foreign: Task, owner: UserId, filter: string,
                               status: Option<string>, title: Option<string>, description: Option<string>,
                               priority: Priority, newStatus: Status, now: int)
    requires foreign.owner != owner
    ensures var id, more := foreign.id, tasks + [foreign];
            && Select(more, owner, filter) == Select(tasks, owner, filter)
            && ComputeStats(more, owner) == ComputeStats(tasks, owner)
            && StatusStep(more, id, owner, status, now).response == StatusStep(tasks, id, owner, status, now).response
            && PurgeStep(more, id, owner).response == PurgeStep(tasks, id, owner).response
            && EditFormLookup(more, id, owner) == EditFormLookup(tasks, id, owner)
            && EditStep(more, id, owner, title, description, priority, newStatus, now).response
               == EditStep(tasks, id, owner, title, description, priority, newStatus, now).response
  {
    var more := tasks + [foreign];
    OwnedAppend(tasks, [foreign], owner);
    OwnedCons(foreign, [], owner);
    assert Owned(tasks, owner) + [] == Owned(tasks, owner);
    DashboardIsolated(more, tasks, owner, filter);
    StatusIsolated(more, tasks, foreign.id, owner, status, now);
    PurgeIsolated(more, tasks, foreign.id, owner);
    EditFormIsolated(more, tasks, foreign.id, owner);
    EditIsolated(more, tasks, foreign.id, owner, title, description, priority, newStatus, now);
  }

  /** The status route has no transition table: every status, "deleted" to
      "completed" included, can be set on every task the caller owns. */
  lemma AnyStatusFromAnyStatus(tasks: seq<Task>, t: Task, target: Status, now: int)
    requires t in tasks
    ensures var s := StatusStep(tasks, t.id, t.owner, Some(StatusName(target)), now);
            s.response.Success? && s.response.value.status == target
  {
    ParseStatusName(target);
  }

  // ---------------------------------------------------------------------
  // The handlers performed in place on one store.

  class TaskStore {
    var tasks: seq<Task>
    var nextId: TaskId

    ghost predicate Valid()
      reads this
    {
      StoreInvariant(tasks, nextId)
    }

    constructor ()
      ensures Valid() && tasks == [] && nextId == 0
    {
      tasks := [];
      nextId := 0;
    }

    /** GET /dashboard: the caller's tasks under the filter, in dashboard
        order, and the counters, which ignore the filter. */
    method ListTasks(owner: UserId, filter: Option<string>) returns (listed: seq<Task>, stats: Stats)
      ensures SortedForDashboard(listed)
      ensures multiset(listed) == multiset(Select(tasks, owner, FilterValue(filter)))
      ensures forall t :: t in listed ==> t in tasks && t.owner == owner && Shows(FilterValue(filter), t.status)
      ensures stats.total == stats.pending + stats.completed
      ensures stats.total == |Select(tasks, owner, "all")|
      ensures stats.pending == |Select(tasks, owner, "pending")|
      ensures stats.completed == |Select(tasks, owner, "completed")|
    {
      var f := FilterValue(filter);
      var selected := Select(tasks, owner, f);
      listed := SortForDashboard(selected);
      SortSorted(selected);
      forall t | t in listed ensures t in tasks && t.owner == owner && Shows(f, t.status) {
        assert multiset(selected)[t] > 0;
      }
      stats := ComputeStats(tasks, owner);
      StatsTotal(tasks, owner);
      StatsMatchListings(tasks, owner);
    }

    /** POST /tasks. */
    method CreateTask(owner: UserId, title: Option<string>, description: Option<string>,
                      priority: Option<string>, now: int) returns (r: Result<Task, TaskError>)
      requires Valid()
      modifies this
      ensures Valid()
      ensures Step(r, tasks) == CreateStep(old(tasks), old(nextId), owner, title, description, priority, now)
      ensures nextId == if r.Success? then old(nextId) + 1 else old(nextId)
    {
      CreatePreserves(tasks, nextId, owner, title, description, priority, now);
      if Blank(title) {
        return Failure(TitleRequired);
      }
      var built := BuildTask(nextId, owner, title.value, description, priority, now);
      if built.None? {
        return Failure(SaveFailed);
      }
      tasks := tasks + [built.value];
      nextId := nextId + 1;
      r := Success(built.value);
    }

    /** POST /tasks/:id/status. */
    method UpdateStatus(id: TaskId, owner: UserId, status: Option<string>, now: int)
      returns (r: Result<Task, TaskError>)
      requires Valid()
      modifies this
      ensures Valid() && nextId == old(nextId)
      ensures Step(r, tasks) == StatusStep(old(tasks), id, owner, status, now)
      ensures r.Success? ==>
                forall k :: 0 <= k < |tasks| ==> tasks[k] == if old(tasks)[k].id == id then r.value else old(tasks)[k]
    {
      StatusPreserves(tasks, nextId, id, owner, status, now);
      StatusRewritesThatTask(tasks, nextId, id, owner, status, now);
      if !StatusAccepted(status) {
        return Failure(InvalidStatus);
      }
      var q := Query(id, owner, AnyStatus);
      var p := SetStatus(ParseStatus(status.value).value, now);
      var found := FindOne(tasks, q);
      if found.None? {
        return Failure(NotFound);
      }
      tasks := UpdateOne(tasks, q, p);
      r := Success(Apply(p, found.value));
    }

    /** POST /tasks/:id/delete. */
    method PermanentDelete(id: TaskId, owner: UserId) returns (r: Result<Task, TaskError>)
      requires Valid()
      modifies this
      ensures Valid() && nextId == old(nextId)
      ensures Step(r, tasks) == PurgeStep(old(tasks), id, owner)
    {
      PurgePreserves(tasks, nextId, id, owner);
      var q := Query(id, owner, {Deleted});
      var found := FindOne(tasks, q);
      if found.None? {
        return Failure(NotFoundOrNotDeleted);
      }
      tasks := DeleteOne(tasks, q);
      r := Success(found.value);
    }

    /** GET /tasks/:id/edit. */
    method LoadForEdit(id: TaskId, owner: UserId) returns (r: Option<Task>)
      ensures r == EditFormLookup(tasks, id, owner)
      ensures r.Some? ==> r.value in tasks && r.value.owner == owner && r.value.status != Deleted
    {
      r := FindOne(tasks, Query(id, owner, ActiveStatuses));
    }

    /** POST /tasks/:id/edit. */
    method SubmitEdit(id: TaskId, owner: UserId, title: Option<string>, description: Option<string>,
                      priority: Priority, status: Status, now: int) returns (r: Result<Task, TaskError>)
      requires Valid()
      modifies this
      ensures Valid() && nextId == old(nextId)
      ensures Step(r, tasks) == EditStep(old(tasks), id, owner, title, description, priority, status, now)
      ensures r.Success? ==>
                forall k :: 0 <= k < |tasks| ==> tasks[k] == if old(tasks)[k].id == id then r.value else old(tasks)[k]
    {
      EditPreserves(tasks, nextId, id, owner, title, description, priority, status, now);
      EditRewritesThatTask(tasks, nextId, id, owner, title, description, priority, status, now);
      if Blank(title) {
        return Failure(TitleRequired);
      }
      var q := Query(id, owner, AnyStatus);
      var p := Overwrite(Trim(title.value), Trim(OrEmpty(description)), priority, status, now);
      var found := FindOne(tasks, q);
      if found.None? {
        return Failure(NotFound);
      }
      tasks := UpdateOne(tasks, q, p);
      r := Success(Apply(p, found.value));
    }
  }
}
